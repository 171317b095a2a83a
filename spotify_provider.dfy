/*
 * The Spotify widget's provider: the access token and whether it is
 * accepted, the player state parsed from the "currently playing" reply, a
 * progress counter advanced once a second between polls, and the last
 * error.
 *
 * The REST client is outside the model: a request is recorded in
 * `requests`, and its reply comes back through `OnPlaybackDataReceived`.
 * Timers are a flag (the poll timer) or a call (`UpdateProgress` is what
 * the one-second timer invokes).
 */
module SpotifyProvider {
  import opened Common

  const ApiUrl: string := "https://api.spotify.com/v1"
  const ProgressUpdateMs: int := 1000

  datatype Request = Request(verb: string, url: string, authorization: string)

  datatype Signal = AuthenticationChanged | PlaybackStateChanged | TrackChanged | ProgressChanged | ErrorChanged

  /** The player fields the reply parser writes. */
  datatype Player = Player(
    playing: bool, trackName: string, artistName: string, albumName: string,
    albumArtUrl: string, progress: int, duration: int, error: string)

  /** The artist names of an "artists" list, in order. */
  function ArtistNames(artists: seq<Value>): (r: seq<string>)
    ensures |r| == |artists|
    ensures forall i :: 0 <= i < |artists| ==> r[i] == ToStr(Get(ToObject(artists[i]), "name"))
  {
    if |artists| == 0 then []
    else ArtistNames(artists[..|artists| - 1]) + [ToStr(Get(ToObject(artists[|artists| - 1]), "name"))]
  }

  /** The artist text after a reply's item: the names joined by ", ", or unchanged for a missing or empty list. */
  function ArtistText(current: string, item: map<string, Value>): (r: string)
    ensures ("artists" !in item || ToList(item["artists"]) == []) ==> r == current
    ensures "artists" in item && ToList(item["artists"]) != [] ==>
      r == Join(ArtistNames(ToList(item["artists"])), ", ")
  {
    if "artists" in item && ToList(item["artists"]) != [] then Join(ArtistNames(ToList(item["artists"])), ", ")
    else current
  }

  /** The album text: the album's name when an album is given. */
  function AlbumText(current: string, item: map<string, Value>): string
  {
    if "album" in item then ToStr(Get(ToObject(item["album"]), "name")) else current
  }

  /** The album art: the first image's url, when an album with a non-empty image list is given. */
  function AlbumArt(current: string, item: map<string, Value>): string
  {
    if "album" in item && "images" in ToObject(item["album"]) && ToList(ToObject(item["album"])["images"]) != [] then
      ToStr(Get(ToObject(ToList(ToObject(item["album"])["images"])[0]), "url"))
    else current
  }

  /** The play flag and progress of a non-empty reply: each present key overwrites its field. */
  function PlayStateApplied(p: Player, data: map<string, Value>): (r: Player)
    ensures r.playing == (if "is_playing" in data then ToBool(data["is_playing"]) else p.playing)
    ensures r.progress == (if "progress_ms" in data then ToInt(data["progress_ms"]) else p.progress)
    ensures r.(playing := p.playing, progress := p.progress) == p
  {
    p.(playing := if "is_playing" in data then ToBool(data["is_playing"]) else p.playing,
       progress := if "progress_ms" in data then ToInt(data["progress_ms"]) else p.progress)
  }

  /** The signals of the play flag and progress: a changed flag, then any progress. */
  function PlayStateSignals(p: Player, data: map<string, Value>): (r: seq<Signal>)
    ensures PlaybackStateChanged in r <==> "is_playing" in data && ToBool(data["is_playing"]) != p.playing
    ensures ProgressChanged in r <==> "progress_ms" in data
    ensures TrackChanged !in r && ErrorChanged !in r
  {
    (if "is_playing" in data && ToBool(data["is_playing"]) != p.playing then [PlaybackStateChanged] else [])
    + (if "progress_ms" in data then [ProgressChanged] else [])
  }

  /** The track fields after a reply's "item": name, length, artists, album and art. */
  function ItemApplied(p: Player, item: map<string, Value>): (r: Player)
    ensures r.trackName == ToStr(Get(item, "name")) && r.duration == ToInt(Get(item, "duration_ms"))
    ensures r.artistName == ArtistText(p.artistName, item)
    ensures r.playing == p.playing && r.progress == p.progress && r.error == p.error
  {
    p.(trackName := ToStr(Get(item, "name")), duration := ToInt(Get(item, "duration_ms")),
       artistName := ArtistText(p.artistName, item), albumName := AlbumText(p.albumName, item),
       albumArtUrl := AlbumArt(p.albumArtUrl, item))
  }

  /**
   * `parsePlaybackData` on the player fields: an empty reply only stops
   * playback; otherwise each present key overwrites its fields, absent keys
   * leave them, and the error is cleared.
   */
  function ParsedPlayer(p: Player, data: map<string, Value>): (r: Player)
    ensures data == map[] ==> r == p.(playing := false)
    ensures data != map[] ==> r.error == ""
    ensures data != map[] ==> r.playing == (if "is_playing" in data then ToBool(data["is_playing"]) else p.playing)
    ensures data != map[] ==> r.progress == (if "progress_ms" in data then ToInt(data["progress_ms"]) else p.progress)
    ensures "item" in data ==>
      (r.trackName == ToStr(Get(ToObject(data["item"]), "name"))
       && r.duration == ToInt(Get(ToObject(data["item"]), "duration_ms"))
       && r.artistName == ArtistText(p.artistName, ToObject(data["item"])))
    ensures "item" !in data ==>
      (r.trackName == p.trackName && r.duration == p.duration && r.artistName == p.artistName
       && r.albumName == p.albumName && r.albumArtUrl == p.albumArtUrl)
  {
    if data == map[] then p.(playing := false)
    else
      var q := PlayStateApplied(p, data);
      (if "item" in data then ItemApplied(q, ToObject(data["item"])) else q).(error := "")
  }

  /** The signals `parsePlaybackData` sends, in order. */
  function ParseSignals(p: Player, data: map<string, Value>): (r: seq<Signal>)
    ensures data == map[] ==> r == [PlaybackStateChanged]
    ensures TrackChanged in r <==> "item" in data && ToStr(Get(ToObject(data["item"]), "name")) != p.trackName
    ensures ErrorChanged in r <==> data != map[] && p.error != ""
  {
    if data == map[] then [PlaybackStateChanged]
    else
      PlayStateSignals(p, data)
      + (if "item" in data && ToStr(Get(ToObject(data["item"]), "name")) != p.trackName then [TrackChanged] else [])
      + (if p.error != "" then [ErrorChanged] else [])
  }

  class Provider {
    var accessToken: string
    var authenticated: bool
    /** The player fields: play flag, track, artists, album, art, progress, length and last error. */
    var player: Player
    /** Whether the five-second poll timer runs. */
    var pollTimerActive: bool
    var requests: seq<Request>
    var signals: seq<Signal>

    constructor()
      ensures !authenticated && accessToken == "" && !pollTimerActive && requests == [] && signals == []
      ensures player == Player(false, "", "", "", "", 0, 0, "")
    {
      accessToken := "";
      authenticated := false;
      player := Player(false, "", "", "", "", 0, 0, "");
      pollTimerActive := false;
      requests := [];
      signals := [];
    }

    /** `setError`: a different text is stored and announced. */
    method SetError(text: string)
      modifies this
      ensures player == old(player).(error := text)
      ensures signals == old(signals) + (if old(player.error) != text then [ErrorChanged] else [])
      ensures authenticated == old(authenticated) && accessToken == old(accessToken)
      ensures pollTimerActive == old(pollTimerActive) && requests == old(requests)
    {
      if player.error != text {
        player := player.(error := text);
        signals := signals + [ErrorChanged];
      }
    }

    /** `fetchCurrentPlayback`: without a token only the error is set; with one, the request goes out. */
    method FetchCurrentPlayback()
      modifies this
      ensures !old(authenticated) ==>
        requests == old(requests) && player == old(player).(error := "Not authenticated")
        && signals == old(signals) + (if old(player.error) != "Not authenticated" then [ErrorChanged] else [])
      ensures old(authenticated) ==>
        requests == old(requests) + [Request("GET", ApiUrl + "/me/player/currently-playing", "Bearer " + accessToken)]
        && player == old(player) && signals == old(signals)
      ensures authenticated == old(authenticated) && accessToken == old(accessToken)
      ensures pollTimerActive == old(pollTimerActive)
    {
      if !authenticated {
        SetError("Not authenticated");
        return;
      }
      requests := requests + [Request("GET", ApiUrl + "/me/player/currently-playing", "Bearer " + accessToken)];
    }

    /** `setAccessToken`: a non-empty token authenticates, fetches at once and starts polling; an empty one stops polling. */
    method SetAccessToken(token: string)
      modifies this
      ensures accessToken == token && authenticated == (token != "")
      ensures pollTimerActive == authenticated
      ensures token != "" ==>
        requests == old(requests) + [Request("GET", ApiUrl + "/me/player/currently-playing", "Bearer " + token)]
        && signals == old(signals) + [AuthenticationChanged]
      ensures token == "" ==> requests == old(requests) && signals == old(signals) + [AuthenticationChanged]
      ensures player == old(player)
    {
      accessToken := token;
      authenticated := token != "";
      signals := signals + [AuthenticationChanged];
      if authenticated {
        FetchCurrentPlayback();
        pollTimerActive := true;
      } else {
        pollTimerActive := false;
      }
    }

    /** A player command: sent only when authenticated. */
    method SendCommand(verb: string, path: string)
      modifies this
      ensures requests == old(requests) + (if authenticated then [Request(verb, ApiUrl + path, "Bearer " + accessToken)] else [])
      ensures player == old(player) && signals == old(signals)
      ensures authenticated == old(authenticated) && accessToken == old(accessToken)
      ensures pollTimerActive == old(pollTimerActive)
    {
      if !authenticated {
        return;
      }
      requests := requests + [Request(verb, ApiUrl + path, "Bearer " + accessToken)];
    }

    /** `play`, `pause`, `next` and `previous`. */
    method Play()
      modifies this
      ensures requests == old(requests) + (if authenticated then [Request("PUT", ApiUrl + "/me/player/play", "Bearer " + accessToken)] else [])
      ensures player == old(player) && signals == old(signals) && authenticated == old(authenticated)
    {
      SendCommand("PUT", "/me/player/play");
    }

    method Pause()
      modifies this
      ensures requests == old(requests) + (if authenticated then [Request("PUT", ApiUrl + "/me/player/pause", "Bearer " + accessToken)] else [])
      ensures player == old(player) && signals == old(signals) && authenticated == old(authenticated)
    {
      SendCommand("PUT", "/me/player/pause");
    }

    method Next()
      modifies this
      ensures requests == old(requests) + (if authenticated then [Request("POST", ApiUrl + "/me/player/next", "Bearer " + accessToken)] else [])
      ensures player == old(player) && signals == old(signals) && authenticated == old(authenticated)
    {
      SendCommand("POST", "/me/player/next");
    }

    method Previous()
      modifies this
      ensures requests == old(requests) + (if authenticated then [Request("POST", ApiUrl + "/me/player/previous", "Bearer " + accessToken)] else [])
      ensures player == old(player) && signals == old(signals) && authenticated == old(authenticated)
    {
      SendCommand("POST", "/me/player/previous");
    }

    /** `setVolume`: nothing without a token; otherwise the volume, limited to 0..100, goes in the query. */
    method SetVolume(volume: int)
      modifies this
      ensures !authenticated ==> requests == old(requests)
      ensures authenticated ==>
        var v := if volume < 0 then 0 else if volume > 100 then 100 else volume;
        requests == old(requests)
          + [Request("PUT", ApiUrl + "/me/player/volume?volume_percent=" + NatToString(v), "Bearer " + accessToken)]
      ensures player == old(player) && signals == old(signals) && authenticated == old(authenticated)
    {
      if !authenticated {
        return;
      }
      var clamped := if volume < 0 then 0 else if volume > 100 then 100 else volume;
      requests := requests + [Request("PUT", ApiUrl + "/me/player/volume?volume_percent=" + NatToString(clamped), "Bearer " + accessToken)];
    }

    /**
     * `onPlaybackDataReceived`: an error is stored, and one mentioning 401
     * drops the authentication; a reply without error is parsed.
     */
    method OnPlaybackDataReceived(data: map<string, Value>, err: string)
      modifies this
      ensures err != "" ==>
        player == old(player).(error := err)
        && authenticated == (old(authenticated) && !Contains(err, "401"))
        && signals == old(signals) + (if old(player.error) != err then [ErrorChanged] else [])
                     + (if Contains(err, "401") then [AuthenticationChanged] else [])
      ensures err == "" ==>
        player == ParsedPlayer(old(player), data) && authenticated == old(authenticated)
        && signals == old(signals) + ParseSignals(old(player), data)
      ensures requests == old(requests) && accessToken == old(accessToken) && pollTimerActive == old(pollTimerActive)
    {
      if err != "" {
        SetError(err);
        if Contains(err, "401") {
          authenticated := false;
          signals := signals + [AuthenticationChanged];
        }
        return;
      }
      ParsePlaybackData(data);
    }

    /**
     * `updateProgress`: while playing a track of known length, advance by one
     * second, stopping at the end of the track and fetching the next one there.
     */
    method UpdateProgress()
      modifies this
      ensures !(old(player.playing) && old(player.duration) > 0) ==>
        player == old(player) && signals == old(signals) && requests == old(requests)
      ensures old(player.playing) && old(player.duration) > 0 ==>
        var p0 := old(player);
        var atEnd := p0.progress + ProgressUpdateMs >= p0.duration;
        var fetchFails := atEnd && !old(authenticated);
        player.progress <= player.duration
        && player == p0.(progress := if atEnd then p0.duration else p0.progress + ProgressUpdateMs,
                         error := if fetchFails then "Not authenticated" else p0.error)
        && requests == old(requests)
                       + (if atEnd && authenticated
                          then [Request("GET", ApiUrl + "/me/player/currently-playing", "Bearer " + accessToken)]
                          else [])
        && signals == old(signals) + (if fetchFails && p0.error != "Not authenticated" then [ErrorChanged] else [])
                      + [ProgressChanged]
      ensures authenticated == old(authenticated) && accessToken == old(accessToken)
      ensures pollTimerActive == old(pollTimerActive)
    {
      if player.playing && player.duration > 0 {
        player := player.(progress := player.progress + ProgressUpdateMs);
        if player.progress >= player.duration {
          player := player.(progress := player.duration);
          FetchCurrentPlayback();
        }
        signals := signals + [ProgressChanged];
      }
    }

    /** `parsePlaybackData`. */
    method ParsePlaybackData(data: map<string, Value>)
      modifies this
      ensures player == ParsedPlayer(old(player), data)
      ensures signals == old(signals) + ParseSignals(old(player), data)
      ensures authenticated == old(authenticated) && requests == old(requests) && accessToken == old(accessToken)
      ensures pollTimerActive == old(pollTimerActive)
    {
      if data == map[] {
        player := player.(playing := false);
        signals := signals + [PlaybackStateChanged];
        return;
      }
      ApplyPlayState(data);
      ApplyItemIfPresent(data);
      SetError("");
    }

    /** The track fields of a reply: applied when the reply has an "item", left alone otherwise. */
    method ApplyItemIfPresent(data: map<string, Value>)
      modifies this
      ensures player == (if "item" in data then ItemApplied(old(player), ToObject(data["item"])) else old(player))
      ensures signals == old(signals)
        + (if "item" in data && ToStr(Get(ToObject(data["item"]), "name")) != old(player.trackName) then [TrackChanged] else [])
      ensures authenticated == old(authenticated) && requests == old(requests) && accessToken == old(accessToken)
      ensures pollTimerActive == old(pollTimerActive)
    {
      if "item" in data {
        ApplyItem(ToObject(data["item"]));
      }
    }

    /** The play flag and progress part of `parsePlaybackData`. */
    method ApplyPlayState(data: map<string, Value>)
      modifies this
      ensures player == PlayStateApplied(old(player), data)
      ensures signals == old(signals) + PlayStateSignals(old(player), data)
      ensures authenticated == old(authenticated) && requests == old(requests) && accessToken == old(accessToken)
      ensures pollTimerActive == old(pollTimerActive)
    {
      if "is_playing" in data {
        var newPlaying := ToBool(data["is_playing"]);
        if player.playing != newPlaying {
          player := player.(playing := newPlaying);
          signals := signals + [PlaybackStateChanged];
        }
      }
      if "progress_ms" in data {
        player := player.(progress := ToInt(data["progress_ms"]));
        signals := signals + [ProgressChanged];
      }
    }

    /** The "item" part of `parsePlaybackData`: track, length, artists, album and art. */
    method ApplyItem(item: map<string, Value>)
      modifies this
      ensures player == ItemApplied(old(player), item)
      ensures signals == old(signals) + (if ToStr(Get(item, "name")) != old(player.trackName) then [TrackChanged] else [])
      ensures authenticated == old(authenticated) && requests == old(requests) && accessToken == old(accessToken)
      ensures pollTimerActive == old(pollTimerActive)
    {
      var newTrackName := ToStr(Get(item, "name"));
      var hasTrackChanged := player.trackName != newTrackName;
      var newArtist := ReadArtists(player.artistName, item);
      var newAlbum := player.albumName;
      var newArt := player.albumArtUrl;
      if "album" in item {
        var album := ToObject(item["album"]);
        newAlbum := ToStr(Get(album, "name"));
        if "images" in album {
          var images := ToList(album["images"]);
          if |images| > 0 {
            newArt := ToStr(Get(ToObject(images[0]), "url"));
          }
        }
      }
      player := player.(trackName := newTrackName, duration := ToInt(Get(item, "duration_ms")),
                        artistName := newArtist, albumName := newAlbum, albumArtUrl := newArt);
      if hasTrackChanged {
        signals := signals + [TrackChanged];
      }
    }
  }

  /**
   * The artist part of `parsePlaybackData`: with a non-empty "artists"
   * list, every artist's name in order, joined by ", "; otherwise `current`.
   */
  method ReadArtists(current: string, item: map<string, Value>) returns (text: string)
    ensures text == ArtistText(current, item)
  {
    text := current;
    if "artists" in item {
      var artists := ToList(item["artists"]);
      if |artists| > 0 {
        var artistNames: seq<string> := [];
        var i := 0;
        while i < |artists|
          invariant 0 <= i <= |artists|
          invariant artistNames == ArtistNames(artists[..i])
        {
          artistNames := artistNames + [ToStr(Get(ToObject(artists[i]), "name"))];
          assert artists[..i + 1][..i] == artists[..i];
          i := i + 1;
        }
        assert artists[..i] == artists;
        text := Join(artistNames, ", ");
      }
    }
  }
}
