/**
 * The search-then-play decision logic of main.py (`play_song`, `play_spotify`)
 * and the frame guard of `capture_and_show_screen`. The HTTP responses and the
 * token refresh are inputs; each operation returns its outcome together with the
 * trace of requests it issued, in order.
 */
module SpotifyPlayback {
  import opened Common
  import opened MoodTable

  type Headers = seq<(string, string)>

  /** A request issued to the remote service. */
  datatype Request =
    | RefreshToken                                      // get_token(): the OAuth access-token refresh
    | Get(url: string, headers: Headers)                // the track search
    | Put(url: string, headers: Headers, uris: seq<string>)  // the playback start, with its JSON `uris`

  /**
   * The search response: its status code and, when the JSON body has a
   * `tracks.items` list, the ids of those items in order.
   */
  datatype SearchResponse = SearchResponse(status: int, items: Option<seq<string>>)

  /** How one `play_song` call ends. */
  datatype PlayOutcome =
    | Started                  // play status 204
    | PlayFailed(status: int)  // "Error starting playback"
    | NoTracks                 // "No tracks found for artist"
    | SearchFailed(status: int) // "Error searching for artist"

  datatype PlaySongResult = PlaySongResult(outcome: PlayOutcome, trace: seq<Request>)

  const SearchBase := "https://api.spotify.com/v1/search?q=artist%3A"
  const SearchSuffix := "&type=track&limit=1"
  const PlayBase := "https://api.spotify.com/v1/me/player/play?device_id="
  const TrackScheme := "spotify:track:"

  /**
   * The replacement `artist_name.replace(' ', '%20')`: each space becomes the
   * three characters `%20`, so the name never gets shorter.
   */
  function EncodeSpaces(s: string): (r: string)
    ensures |r| >= |s|
  {
    if s == [] then []
    else (if s[0] == ' ' then "%20" else [s[0]]) + EncodeSpaces(s[1..])
  }

  /** The encoded name holds no space, and a name without spaces is left as it is. */
  lemma {:induction false} EncodeSpacesRemovesSpaces(s: string)
    ensures ' ' !in EncodeSpaces(s)
    ensures (' ' !in s) ==> EncodeSpaces(s) == s
  {
    if s != [] {
      EncodeSpacesRemovesSpaces(s[1..]);
      var piece := if s[0] == ' ' then "%20" else [s[0]];
      assert ' ' !in piece;
      assert EncodeSpaces(s) == piece + EncodeSpaces(s[1..]);
      if ' ' !in s {
        assert ' ' !in s[1..];
        assert s == [s[0]] + s[1..];
      }
    }
  }

  /** Reference inverse of `EncodeSpaces`: each `%20` becomes a space again. */
  function DecodeSpaces(t: string): (r: string)
  {
    if |t| >= 3 && t[..3] == "%20" then " " + DecodeSpaces(t[3..])
    else if t == [] then []
    else [t[0]] + DecodeSpaces(t[1..])
  }

  /** Encoding loses nothing but the spaces: a name without `%` decodes back exactly. */
  lemma {:induction false} EncodeSpacesRoundTrip(s: string)
    requires '%' !in s
    ensures DecodeSpaces(EncodeSpaces(s)) == s
  {
    if s != [] {
      EncodeSpacesRoundTrip(s[1..]);
      var rest := EncodeSpaces(s[1..]);
      if s[0] == ' ' {
        assert EncodeSpaces(s) == "%20" + rest;
        assert ("%20" + rest)[..3] == "%20";
        assert ("%20" + rest)[3..] == rest;
      } else {
        var t := [s[0]] + rest;
        assert EncodeSpaces(s) == t;
        assert t[0] == s[0] && t[1..] == rest;
        assert |t| >= 3 ==> t[..3][0] == s[0];
      }
    }
  }

  /** Encoding distributes over concatenation, so it acts on each character on its own. */
  lemma {:induction false} EncodeSpacesAppend(a: string, b: string)
    ensures EncodeSpaces(a + b) == EncodeSpaces(a) + EncodeSpaces(b)
  {
    if a != [] {
      var ab := a + b;
      assert ab[0] == a[0] && ab[1..] == a[1..] + b;
      var tail := EncodeSpaces(ab[1..]);
      EncodeSpacesAppend(a[1..], b);
      if a[0] == ' ' {
        calc {
          EncodeSpaces(ab);
          "%20" + tail;
          "%20" + (EncodeSpaces(a[1..]) + EncodeSpaces(b));
          ("%20" + EncodeSpaces(a[1..])) + EncodeSpaces(b);
        }
      } else {
        calc {
          EncodeSpaces(ab);
          [a[0]] + tail;
          [a[0]] + (EncodeSpaces(a[1..]) + EncodeSpaces(b));
          ([a[0]] + EncodeSpaces(a[1..])) + EncodeSpaces(b);
        }
      }
    } else {
      assert a + b == b;
    }
  }

  /** The search URL: the artist filter with spaces encoded, tracks only, the top match only. */
  function SearchUrl(artist: string): (r: string)
  {
    SearchBase + EncodeSpaces(artist) + SearchSuffix
  }

  /**
   * The search URL starts with the fixed artist-search prefix and ends with the
   * track-only, top-match-only suffix. Between them lies the encoded name: it
   * holds no space and, for a name without `%`, decodes back to the artist.
   */
  lemma SearchUrlShape(artist: string)
    ensures var u := SearchUrl(artist);
      |u| >= |SearchBase| + |SearchSuffix| &&
      u[..|SearchBase|] == SearchBase && u[|u| - |SearchSuffix|..] == SearchSuffix &&
      var name := u[|SearchBase|..|u| - |SearchSuffix|];
      name == EncodeSpaces(artist) && ' ' !in name &&
      ('%' !in artist ==> DecodeSpaces(name) == artist)
  {
    EncodeSpacesRemovesSpaces(artist);
    var u := SearchUrl(artist);
    assert u == SearchBase + EncodeSpaces(artist) + SearchSuffix;
    assert u[|SearchBase|..|u| - |SearchSuffix|] == EncodeSpaces(artist);
    if '%' !in artist {
      EncodeSpacesRoundTrip(artist);
    }
  }

  /** The play URL embeds the device id verbatim. */
  function PlayUrl(deviceId: string): (r: string)
  {
    PlayBase + deviceId
  }

  /** Both requests carry the bearer token and the JSON content type. */
  function AuthHeaders(token: string): (r: Headers)
  {
    [("Authorization", "Bearer " + token), ("Content-Type", "application/json")]
  }

  function TrackUri(trackId: string): (r: string)
  {
    TrackScheme + trackId
  }

  /** The search found at least one track. */
  predicate HasItems(search: SearchResponse)
  {
    search.items.Some? && |search.items.value| > 0
  }

  /**
   * `play_song(token, artist_name, device_id)`: search for the artist's top
   * track; on a 200 response with at least one item, ask to play the first one.
   * `playStatus` is the status the play request would receive.
   */
  function PlaySong(token: string, artist: string, deviceId: string,
                    search: SearchResponse, playStatus: int): (r: PlaySongResult)
    // the search is always issued first, with the token
    ensures 1 <= |r.trace| <= 2
    ensures r.trace[0] == Get(SearchUrl(artist), AuthHeaders(token))
    // the play request is issued exactly after a 200 search with items
    ensures |r.trace| == 2 <==> search.status == 200 && HasItems(search)
    ensures |r.trace| == 2 ==>
      r.trace[1] == Put(PlayUrl(deviceId), AuthHeaders(token), [TrackUri(search.items.value[0])])
    // the outcome classification
    ensures r.outcome == Started <==> |r.trace| == 2 && playStatus == 204
    ensures r.outcome.PlayFailed? <==> |r.trace| == 2 && playStatus != 204
    ensures r.outcome.PlayFailed? ==> r.outcome.status == playStatus
    ensures r.outcome == NoTracks <==> search.status == 200 && !HasItems(search)
    ensures r.outcome.SearchFailed? <==> search.status != 200
    ensures r.outcome.SearchFailed? ==> r.outcome.status == search.status
  {
    var headers := AuthHeaders(token);
    var searchRequest := Get(SearchUrl(artist), headers);
    if search.status == 200 then
      if HasItems(search) then
        var playRequest := Put(PlayUrl(deviceId), headers, [TrackUri(search.items.value[0])]);
        var outcome := if playStatus == 204 then Started else PlayFailed(playStatus);
        PlaySongResult(outcome, [searchRequest, playRequest])
      else
        PlaySongResult(NoTracks, [searchRequest])
    else
      PlaySongResult(SearchFailed(search.status), [searchRequest])
  }

  /** Every request `play_song` issues carries the token it was given and no other. */
  lemma PlaySongUsesToken(token: string, artist: string, deviceId: string,
                          search: SearchResponse, playStatus: int)
    ensures forall q :: q in PlaySong(token, artist, deviceId, search, playStatus).trace ==>
      !q.RefreshToken? && q.headers == AuthHeaders(token)
  {
  }

  /** Distinct artist names without `%` give distinct search URLs. */
  lemma SearchUrlInjective(a: string, b: string)
    requires '%' !in a && '%' !in b
    requires SearchUrl(a) == SearchUrl(b)
    ensures a == b
  {
    SearchUrlShape(a);
    SearchUrlShape(b);
  }

  /** How one `play_spotify` call ends. */
  datatype SpotifyOutcome =
    | TokenFailed                                  // get_token() raised; nothing else ran
    | NoArtists(mood: string)                      // "No artists found for emotion"
    | Played(artist: string, result: PlayOutcome)  // play_song ran for this artist

  datatype SpotifyResult = SpotifyResult(outcome: SpotifyOutcome, trace: seq<Request>)

  /**
   * `play_spotify(emotion, device_id)`. `token` is what the refresh returned
   * (`None` when it raised), `pick` the random oracle, `search` and `playStatus`
   * the responses the requests of `play_song` would receive.
   */
  function PlaySpotify(emotion: string, deviceId: string, token: Option<string>, pick: nat,
                       search: SearchResponse, playStatus: int): (r: SpotifyResult)
    // the token is always fetched first, before the lookup
    ensures |r.trace| >= 1 && r.trace[0] == RefreshToken
    ensures token.None? ==> r == SpotifyResult(TokenFailed, [RefreshToken])
    // an unknown mood issues nothing beyond the refresh
    ensures token.Some? && ToLower(emotion) !in MoodArtists ==>
      r == SpotifyResult(NoArtists(ToLower(emotion)), [RefreshToken])
    // a known mood plays a candidate of that mood, through exactly one play_song call
    ensures token.Some? && ToLower(emotion) in MoodArtists ==>
      r.outcome.Played? && r.outcome.artist in MoodArtists[ToLower(emotion)]
    ensures r.outcome.Played? ==>
      token.Some? && ToLower(emotion) in MoodArtists &&
      var song := PlaySong(token.value, r.outcome.artist, deviceId, search, playStatus);
      r.outcome.result == song.outcome && r.trace == [RefreshToken] + song.trace
  {
    match token
    case None => SpotifyResult(TokenFailed, [RefreshToken])
    case Some(t) =>
      var mood := ToLower(emotion);
      match SelectArtist(emotion, pick)
      case None => SpotifyResult(NoArtists(mood), [RefreshToken])
      case Some(artist) =>
        var song := PlaySong(t, artist, deviceId, search, playStatus);
        SpotifyResult(Played(artist, song.outcome), [RefreshToken] + song.trace)
  }

  /** A trace holds exactly one refresh and at most one search, and every search and play uses the fresh token. */
  lemma PlaySpotifyRequests(emotion: string, deviceId: string, token: Option<string>, pick: nat,
                            search: SearchResponse, playStatus: int)
    ensures var r := PlaySpotify(emotion, deviceId, token, pick, search, playStatus);
      |r.trace| <= 3 &&
      (forall i :: 1 <= i < |r.trace| ==> !r.trace[i].RefreshToken? && r.trace[i].headers == AuthHeaders(token.value)) &&
      (forall i :: 2 <= i < |r.trace| ==> !r.trace[i].Get?)
  {
    var r := PlaySpotify(emotion, deviceId, token, pick, search, playStatus);
    if r.outcome.Played? {
      var song := PlaySong(token.value, r.outcome.artist, deviceId, search, playStatus);
      assert r.trace == [RefreshToken] + song.trace;
      assert r.trace[1] == song.trace[0];
      assert |r.trace| == 3 ==> r.trace[2] == song.trace[1];
    } else {
      assert |r.trace| == 1;
    }
  }

  /**
   * The scenario of a happy face: one of its two artists is searched, track
   * T123 comes back, the play request for track T123 on the given
   * device gets 204, and the outcome is `Started` after exactly one search and
   * one play request.
   */
  lemma HappyScenario(pick: nat, deviceId: string, token: string)
    ensures var r := PlaySpotify("happy", deviceId, Some(token), pick,
                                 SearchResponse(200, Some(["T123"])), 204);
      r.outcome.Played? &&
      r.outcome.artist in {"Dua Lipa", "Bruno Mars"} &&
      r.outcome.result == Started &&
      r.trace == [RefreshToken,
                  Get(SearchUrl(r.outcome.artist), AuthHeaders(token)),
                  Put(PlayUrl(deviceId), AuthHeaders(token), [TrackUri("T123")])]
  {
    var artist := HappyPick(pick);
    FoundTrackStarts(token, artist, deviceId);
    PlaySpotifyKnown(pick, deviceId, token, artist, SearchResponse(200, Some(["T123"])), 204);
  }

  lemma HappyPick(pick: nat) returns (artist: string)
    ensures SelectArtist("happy", pick) == Some(artist)
    ensures artist in {"Dua Lipa", "Bruno Mars"}
  {
    HappyCandidates();
    ToLowerOfUpperCase("happy", "happy");
    artist := SelectArtist("happy", pick).value;
    assert artist in ["Dua Lipa", "Bruno Mars"];
  }

  /** A search that finds track T123 followed by a 204 play starts playback of T123. */
  lemma FoundTrackStarts(token: string, artist: string, deviceId: string)
    ensures PlaySong(token, artist, deviceId, SearchResponse(200, Some(["T123"])), 204)
      == PlaySongResult(Started, [Get(SearchUrl(artist), AuthHeaders(token)),
                                  Put(PlayUrl(deviceId), AuthHeaders(token), [TrackUri("T123")])])
  {
    var search := SearchResponse(200, Some(["T123"]));
    assert HasItems(search) && search.items.value[0] == "T123";
  }

  lemma PlaySpotifyKnown(pick: nat, deviceId: string, token: string, artist: string,
                         search: SearchResponse, playStatus: int)
    requires SelectArtist("happy", pick) == Some(artist)
    ensures var song := PlaySong(token, artist, deviceId, search, playStatus);
      PlaySpotify("happy", deviceId, Some(token), pick, search, playStatus)
        == SpotifyResult(Played(artist, song.outcome), [RefreshToken] + song.trace)
  {
  }

  /** An empty search result for Adele ends in `NoTracks` with no play request. */
  lemma NoTrackScenario(token: string, deviceId: string, playStatus: int)
    ensures PlaySong(token, "Adele", deviceId, SearchResponse(200, Some([])), playStatus)
      == PlaySongResult(NoTracks, [Get(SearchUrl("Adele"), AuthHeaders(token))])
  {
  }

  /** What the "Play my vibe" button reports. */
  datatype CaptureOutcome =
    | UnableToCapture               // `cap.read()` returned no frame
    | Dispatched(result: SpotifyResult)

  /** `str(device_id)` as the f-string writes it: a missing `DEVICE_ID` reads `None`. */
  function DeviceText(deviceEnv: Option<string>): (r: string)
  {
    if deviceEnv.None? then "None" else deviceEnv.value
  }

  /**
   * `capture_and_show_screen(device_id)`: only a captured frame (`ret`) is
   * classified; its dominant emotion `dominant` and the text of `DEVICE_ID`
   * drive `play_spotify`.
   */
  function CaptureAndShow(ret: bool, dominant: string, deviceEnv: Option<string>, token: Option<string>,
                          pick: nat, search: SearchResponse, playStatus: int): (r: CaptureOutcome)
    ensures !ret <==> r == UnableToCapture
    // a captured frame always refreshes the token first
    ensures r.Dispatched? ==> |r.result.trace| >= 1 && r.result.trace[0] == RefreshToken
    ensures ret && token.None? ==> r == Dispatched(SpotifyResult(TokenFailed, [RefreshToken]))
    // the dominant emotion decides whether anything is played, and what
    ensures ret && token.Some? && ToLower(dominant) !in MoodArtists ==>
      r == Dispatched(SpotifyResult(NoArtists(ToLower(dominant)), [RefreshToken]))
    ensures ret && token.Some? && ToLower(dominant) in MoodArtists ==>
      r.result.outcome.Played? && r.result.outcome.artist in MoodArtists[ToLower(dominant)]
    // the play goes through play_song with the fresh token and the device text
    ensures r.Dispatched? && r.result.outcome.Played? ==>
      var song := PlaySong(token.value, r.result.outcome.artist, DeviceText(deviceEnv), search, playStatus);
      r.result.outcome.result == song.outcome && r.result.trace == [RefreshToken] + song.trace
  {
    if ret then Dispatched(PlaySpotify(dominant, DeviceText(deviceEnv), token, pick, search, playStatus))
    else UnableToCapture
  }

  /** The only play request `play_song` issues goes to the play URL of its device. */
  lemma PlaySongPlayUrl(token: string, artist: string, deviceId: string,
                        search: SearchResponse, playStatus: int)
    ensures var trace := PlaySong(token, artist, deviceId, search, playStatus).trace;
      forall i :: 0 <= i < |trace| && trace[i].Put? ==> i == 1 && trace[i].url == PlayUrl(deviceId)
  {
  }

  /** Every play request `play_spotify` issues goes to the play URL of its device. */
  lemma PlaySpotifyPlayUrl(emotion: string, deviceId: string, token: Option<string>, pick: nat,
                           search: SearchResponse, playStatus: int)
    ensures var trace := PlaySpotify(emotion, deviceId, token, pick, search, playStatus).trace;
      forall i :: 0 <= i < |trace| && trace[i].Put? ==> trace[i].url == PlayUrl(deviceId)
  {
    var trace := PlaySpotify(emotion, deviceId, token, pick, search, playStatus).trace;
    match token
    case None =>
    case Some(t) =>
      match SelectArtist(emotion, pick)
      case None =>
      case Some(artist) =>
        var song := PlaySong(t, artist, deviceId, search, playStatus).trace;
        assert trace == [RefreshToken] + song;
        PlaySongPlayUrl(t, artist, deviceId, search, playStatus);
        forall i | 0 <= i < |trace| && trace[i].Put?
          ensures trace[i].url == PlayUrl(deviceId)
        {
          assert trace[i] == song[i - 1];
        }
  }

  /**
   * Pressing the button with `DEVICE_ID` unset: any play request that follows
   * goes to the play URL ending in the text `None`.
   */
  lemma MissingDevicePlayUrl(dominant: string, token: Option<string>, pick: nat,
                             search: SearchResponse, playStatus: int)
    ensures var r := CaptureAndShow(true, dominant, None, token, pick, search, playStatus);
      forall i :: 0 <= i < |r.result.trace| && r.result.trace[i].Put? ==>
        r.result.trace[i].url == PlayBase + "None"
  {
    assert DeviceText(None) == "None";
    assert CaptureAndShow(true, dominant, None, token, pick, search, playStatus)
      == Dispatched(PlaySpotify(dominant, "None", token, pick, search, playStatus));
    PlaySpotifyPlayUrl(dominant, "None", token, pick, search, playStatus);
  }
}
