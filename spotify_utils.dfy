/**
 * `src/utils/spotifyUtils.ts`: extracting a Spotify playlist identifier from a
 * URL, URI or bare identifier, and building the embeddable player URL.
 *
 * The three regular expressions are written out by hand. Each unanchored one
 * is a literal followed by `[a-zA-Z0-9]{22}`, matched at the leftmost position
 * where it matches, as JavaScript's `String.prototype.match` does. The WHATWG
 * URL parser is abstract: `pathnameOf(u)` is `new URL(u).pathname`, `None`
 * when the constructor throws.
 */
module SpotifyUtils {
  import opened Wrappers
  import opened Strings

  /** Literal part of `/spotify\.com\/playlist\/([a-zA-Z0-9]{22})/`. */
  const UrlFormLiteral := "spotify.com/playlist/"
  /** Literal part of `/spotify:playlist:([a-zA-Z0-9]{22})/`. */
  const UriFormLiteral := "spotify:playlist:"
  const IdLength := 22

  const EmbedPrefix := "https://open.spotify.com/embed/playlist/"
  const EmbedSuffix := "?utm_source=generator&theme=0"

  /** The entries of `SPOTIFY_PLAYLIST_REGEX`, in their order. */
  datatype Pattern = UrlForm | UriForm | DirectId

  const PlaylistPatterns: seq<Pattern> := [UrlForm, UriForm, DirectId]

  /** `lit` followed by 22 alphanumerics matches `s` at index `i`. */
  predicate IdAfterAt(s: string, lit: string, i: nat) {
    i + |lit| + IdLength <= |s| && s[i..i + |lit|] == lit
    && IsAlnumString(s[i + |lit|..i + |lit| + IdLength])
  }

  /** The leftmost index at or after `from` where `IdAfterAt` holds: the regex engine's scan. */
  function FirstIdAfter(s: string, lit: string, from: nat): (r: Option<nat>)
    decreases |s| - from
    ensures r.Some? ==> from <= r.value && IdAfterAt(s, lit, r.value)
    ensures forall j :: from <= j && (r.None? || j < r.value) ==> !IdAfterAt(s, lit, j)
  {
    if from + |lit| + IdLength > |s| then None
    else if IdAfterAt(s, lit, from) then Some(from)
    else FirstIdAfter(s, lit, from + 1)
  }

  /** Capture group 1 of one pattern, or `None` when the pattern does not match. */
  function MatchPattern(p: Pattern, s: string): (r: Option<string>)
    ensures r.Some? ==> IsPlaylistIdShape(r.value)
    ensures p == DirectId ==> (r.Some? <==> IsPlaylistIdShape(s)) && (r.Some? ==> r.value == s)
  {
    match p
    case UrlForm =>
      (match FirstIdAfter(s, UrlFormLiteral, 0)
       case Some(i) => Some(s[i + |UrlFormLiteral|..i + |UrlFormLiteral| + IdLength])
       case None => None)
    case UriForm =>
      (match FirstIdAfter(s, UriFormLiteral, 0)
       case Some(i) => Some(s[i + |UriFormLiteral|..i + |UriFormLiteral| + IdLength])
       case None => None)
    case DirectId =>
      if IsPlaylistIdShape(s) then Some(s) else None
  }

  /** The `for ... of` loop over the patterns: the first pattern that matches wins. */
  function TryPatterns(ps: seq<Pattern>, s: string): (r: Option<string>)
    ensures r.Some? ==> exists k :: 0 <= k < |ps| && MatchPattern(ps[k], s) == r
                          && forall j :: 0 <= j < k ==> MatchPattern(ps[j], s).None?
    ensures r.None? ==> forall k :: 0 <= k < |ps| ==> MatchPattern(ps[k], s).None?
  {
    if |ps| == 0 then None
    else
      match MatchPattern(ps[0], s)
      case Some(id) => Some(id)
      case None =>
        var r := TryPatterns(ps[1..], s);
        assert forall k :: 1 <= k < |ps| ==> ps[k] == ps[1..][k - 1];
        r
  }

  /** The path-segment fallback on `new URL(url).pathname`. */
  function PathSegmentId(pathname: string): (r: Option<string>)
    ensures r.Some? ==> Utf16Length(r.value) == IdLength
    ensures r.Some? <==>
      var segs := Split(pathname, "/");
      var k := IndexOf(segs, "playlist");
      k != -1 && k + 1 < |segs| && Utf16Length(segs[k + 1]) == IdLength
    ensures r.Some? ==> r.value == Split(pathname, "/")[IndexOf(Split(pathname, "/"), "playlist") + 1]
  {
    var segs := Split(pathname, "/");
    var k := IndexOf(segs, "playlist");
    if k != -1 && k + 1 < |segs| then
      var id := segs[k + 1];
      if id != "" && Utf16Length(id) == IdLength then Some(id) else None
    else None
  }

  /**
   * `getPlaylistId(url)`. The outer `try` never catches anything: `match` on a
   * string does not throw, and the inner `try` absorbs a failing URL parse.
   */
  function GetPlaylistId(url: string, pathnameOf: string -> Option<string>): (r: Option<string>)
    ensures TryPatterns(PlaylistPatterns, url).Some? ==> r == TryPatterns(PlaylistPatterns, url)
    ensures TryPatterns(PlaylistPatterns, url).None? ==>
      r == (if pathnameOf(url).Some? then PathSegmentId(pathnameOf(url).value) else None)
  {
    match TryPatterns(PlaylistPatterns, url)
    case Some(id) => Some(id)
    case None =>
      match pathnameOf(url)
      case Some(path) => PathSegmentId(path)
      case None => None
  }

  /** `getPlaylistEmbedUrl(playlistId)`. */
  function GetPlaylistEmbedUrl(playlistId: Option<string>): (r: Option<string>)
    ensures r.None? <==> !Truthy(playlistId)
    ensures r.Some? ==> r.value == EmbedPrefix + playlistId.value + EmbedSuffix
  {
    if !Truthy(playlistId) then None
    else Some(EmbedPrefix + playlistId.value + EmbedSuffix)
  }

  // ---------------------------------------------------------------------------
  // Properties

  /** Every identifier `getPlaylistId` takes from a pattern is 22 ASCII alphanumerics. */
  lemma PatternIdShape(url: string)
    ensures TryPatterns(PlaylistPatterns, url).Some? ==> IsPlaylistIdShape(TryPatterns(PlaylistPatterns, url).value)
  {
  }

  /** The patterns are tried URL form, then URI form, then bare identifier. */
  lemma PatternOrder(url: string)
    ensures MatchPattern(UrlForm, url).Some? ==> GetPlaylistId(url, _ => None) == MatchPattern(UrlForm, url)
    ensures MatchPattern(UrlForm, url).None? && MatchPattern(UriForm, url).Some? ==>
              TryPatterns(PlaylistPatterns, url) == MatchPattern(UriForm, url)
    ensures MatchPattern(UrlForm, url).None? && MatchPattern(UriForm, url).None? ==>
              TryPatterns(PlaylistPatterns, url) == MatchPattern(DirectId, url)
  {
    assert PlaylistPatterns[1..] == [UriForm, DirectId];
    assert [UriForm, DirectId][1..] == [DirectId];
    assert [DirectId][1..] == [];
    assert TryPatterns([DirectId], url) == MatchPattern(DirectId, url);
  }

  /** A bare 22-character alphanumeric string is returned unchanged, whatever the URL parser does. */
  lemma BareIdUnchanged(id: string, pathnameOf: string -> Option<string>)
    requires IsPlaylistIdShape(id)
    ensures GetPlaylistId(id, pathnameOf) == Some(id)
  {
    assert !IdAfterAt(id, UrlFormLiteral, 0);
    assert FirstIdAfter(id, UrlFormLiteral, 0) == None;
    assert FirstIdAfter(id, UriFormLiteral, 0) == None;
    PatternOrder(id);
  }

  /** When no pattern matches and the URL does not parse, the result is `null`. */
  lemma UnparsableIsNull(url: string, pathnameOf: string -> Option<string>)
    requires TryPatterns(PlaylistPatterns, url).None? && pathnameOf(url).None?
    ensures GetPlaylistId(url, pathnameOf) == None
  {
  }

  /** In the embed URL the only window of 22 alphanumerics is the identifier itself. */
  lemma EmbedNonIdWindow(id: string, w: nat)
    requires IsPlaylistIdShape(id)
    requires w + IdLength <= |EmbedPrefix + id + EmbedSuffix| && w != |EmbedPrefix|
    ensures !IsAlnumString((EmbedPrefix + id + EmbedSuffix)[w..w + IdLength])
  {
    var s := EmbedPrefix + id + EmbedSuffix;
    var win := s[w..w + IdLength];
    assert |s| == 91;
    assert s[20] == '.' && s[39] == '/' && s[62] == '?' && s[73] == '=';
    if w <= 20 {
      assert !IsAsciiAlnum(win[20 - w]);
    } else if w < 40 {
      assert !IsAsciiAlnum(win[39 - w]);
    } else if w <= 62 {
      assert !IsAsciiAlnum(win[62 - w]);
    } else {
      assert !IsAsciiAlnum(win[73 - w]);
    }
  }

  /** No pattern matches an embed URL, so `getPlaylistId` reaches the path-segment fallback. */
  lemma EmbedUrlMatchesNoPattern(id: string)
    requires IsPlaylistIdShape(id)
    ensures TryPatterns(PlaylistPatterns, EmbedPrefix + id + EmbedSuffix).None?
  {
    var s := EmbedPrefix + id + EmbedSuffix;
    assert s[19] == 'y' && s[23] == 'm';
    forall i: nat
      ensures !IdAfterAt(s, UrlFormLiteral, i)
    {
      var w := i + |UrlFormLiteral|;
      if w + IdLength <= |s| {
        if w != |EmbedPrefix| {
          EmbedNonIdWindow(id, w);
        } else {
          assert s[i..w][0] == s[19];
        }
      }
    }
    forall i: nat
      ensures !IdAfterAt(s, UriFormLiteral, i)
    {
      var w := i + |UriFormLiteral|;
      if w + IdLength <= |s| {
        if w != |EmbedPrefix| {
          EmbedNonIdWindow(id, w);
        } else {
          assert s[i..w][0] == s[23];
        }
      }
    }
    assert MatchPattern(UrlForm, s).None?;
    assert MatchPattern(UriForm, s).None?;
    assert |s| != IdLength;
    PatternOrder(s);
  }

  /** The embed URL's path splits into `["", "embed", "playlist", id]`. */
  lemma EmbedPathSegments(id: string)
    requires IsPlaylistIdShape(id)
    ensures Split("/embed/playlist/" + id, "/") == ["", "embed", "playlist", id]
  {
    var parts := ["", "embed", "playlist", id];
    assert Join(parts[3..], "/") == id;
    assert Join(parts[2..], "/") == "playlist" + "/" + id;
    assert Join(parts[1..], "/") == "embed" + "/" + ("playlist" + "/" + id);
    assert Join(parts, "/") == "/embed/playlist/" + id;
    forall i | 0 <= i < |parts|
      ensures '/' !in parts[i]
    {
      assert forall k :: 0 <= k < |id| ==> id[k] != '/';
    }
    SplitJoin(parts, "/");
  }

  /**
   * Round trip: the identifier is recovered from its embed URL, through the
   * path-segment fallback, given that the URL parser reports the embed URL's
   * path as `/embed/playlist/<id>`.
   */
  lemma EmbedUrlRoundTrip(id: string, pathnameOf: string -> Option<string>)
    requires IsPlaylistIdShape(id)
    requires pathnameOf(EmbedPrefix + id + EmbedSuffix) == Some("/embed/playlist/" + id)
    ensures GetPlaylistEmbedUrl(Some(id)).Some?
    ensures GetPlaylistId(GetPlaylistEmbedUrl(Some(id)).value, pathnameOf) == Some(id)
  {
    var url := EmbedPrefix + id + EmbedSuffix;
    EmbedUrlMatchesNoPattern(id);
    EmbedPathSegments(id);
    var segs := Split("/embed/playlist/" + id, "/");
    assert segs[2..] == ["playlist", id] && IndexOf(segs[2..], "playlist") == 0;
    assert segs[1..] == ["embed", "playlist", id] && IndexOf(segs[1..], "playlist") == 1;
    assert IndexOf(segs, "playlist") == 2;
    AlnumUtf16Length(id);
  }
}
