/** The track resolver of bot/commands/music/tracks.py: the URL
    classifier, the `Track` record, the platform helpers that fill it
    from the platform clients, and `Track.from_query`, which picks the
    helper. The platform clients (youtube-dl, tekore, sclib) are an
    oracle passed in as `Remote`. */
module Tracks {
  import opened Wrappers
  import opened Exceptions
  import opened Text

  // ================================================================ platforms

  datatype Platform = YOUTUBE | SPOTIFY | SOUNDCLOUD

  /** The enum member's value, as shown to users. */
  function Value(p: Platform): (v: string)
    ensures p == YOUTUBE ==> v == "YouTube"
    ensures p == SPOTIFY ==> v == "Spotify"
    ensures p == SOUNDCLOUD ==> v == "SoundCloud"
  {
    match p
    case YOUTUBE => "YouTube"
    case SPOTIFY => "Spotify"
    case SOUNDCLOUD => "SoundCloud"
  }

  /** Different members carry different values. */
  lemma ValueInjective(p: Platform, q: Platform)
    ensures Value(p) == Value(q) <==> p == q
  {
    if p != q {
      assert Value(p)[0..2] != Value(q)[0..2] || Value(p)[5] != Value(q)[5] || |Value(p)| != |Value(q)|;
    }
  }

  // ================================================================ URL recognisers

  /** What `.` matches: any character but a newline. */
  predicate IsDot(ch: char) {
    ch != '\n'
  }

  predicate IsAsciiAlnum(ch: char) {
    ('a' <= ch <= 'z') || ('A' <= ch <= 'Z') || ('0' <= ch <= '9')
  }

  /** The class `[\w\-\.]` (word characters taken as ASCII). */
  predicate IsPathChar(ch: char) {
    IsAsciiAlnum(ch) || ch == '_' || ch == '-' || ch == '.'
  }

  /** Python's `$` without MULTILINE matches at the very end and just
      before a final newline, so a full match may leave one "\n". */
  predicate EndsBefore(s: string, n: nat) {
    n == |s| || (n + 1 == |s| && s[n] == '\n')
  }

  /** `.+$` from position `n`: at least one character, none a newline,
      up to the end anchor. */
  predicate DotsToEnd(s: string, n: nat) {
    n < |s| && exists m :: n < m <= |s| && EndsBefore(s, m) && forall k :: n <= k < m ==> IsDot(s[k])
  }

  /** `StartsWith` at an offset. */
  predicate LiteralAt(s: string, n: nat, lit: string) {
    n + |lit| <= |s| && s[n..n + |lit|] == lit
  }

  /** The positions where `(https?:\/\/)?` can end. */
  predicate SchemeEnd(s: string, n: nat) {
    n == 0 || (n == 7 && LiteralAt(s, 0, "http://")) || (n == 8 && LiteralAt(s, 0, "https://"))
  }

  // ---- YOUTUBE_REGEX = ^(https?:\/\/)?((www\.)?youtube\.com|youtu\.be)\/.+$

  predicate YouTubeHostAt(s: string, n: nat, h: string) {
    (h == "www.youtube.com" || h == "youtube.com" || h == "youtu.be")
    && LiteralAt(s, n, h + "/") && DotsToEnd(s, n + |h| + 1)
  }

  predicate YouTubeAfterScheme(s: string, n: nat) {
    YouTubeHostAt(s, n, "www.youtube.com") || YouTubeHostAt(s, n, "youtube.com")
    || YouTubeHostAt(s, n, "youtu.be")
  }

  predicate IsYouTubeUrl(s: string) {
    YouTubeAfterScheme(s, 0)
    || (LiteralAt(s, 0, "http://") && YouTubeAfterScheme(s, 7))
    || (LiteralAt(s, 0, "https://") && YouTubeAfterScheme(s, 8))
  }

  // ---- SPOTIFY_REGEX = ^(https?:\/\/)?open.spotify.com\/track\/[a-zA-Z0-9]+\??.+$
  // The dots of "open.spotify.com" are unescaped, so they match any
  // character but a newline.

  /** `[a-zA-Z0-9]+\??.+$` from position `n`: since `.+` needs one
      character, this is an alphanumeric followed by `.+$`. */
  predicate TrackIdAt(s: string, n: nat) {
    n < |s| && IsAsciiAlnum(s[n]) && DotsToEnd(s, n + 1)
  }

  predicate SpotifyAfterScheme(s: string, n: nat) {
    LiteralAt(s, n, "open") && n + 4 < |s| && IsDot(s[n + 4])
    && LiteralAt(s, n + 5, "spotify") && n + 12 < |s| && IsDot(s[n + 12])
    && LiteralAt(s, n + 13, "com/track/") && TrackIdAt(s, n + 23)
  }

  predicate IsSpotifyUrl(s: string) {
    SpotifyAfterScheme(s, 0)
    || (LiteralAt(s, 0, "http://") && SpotifyAfterScheme(s, 7))
    || (LiteralAt(s, 0, "https://") && SpotifyAfterScheme(s, 8))
  }

  // ---- SOUNDCLOUD_REGEX =
  //      ^(https?:\/\/)?(www.)?(m\.)?soundcloud\.com\/[\w\-\.]+(\/)+[\w\-\.]+\/?$

  /** The number of characters from `n` on that satisfy the path class. */
  function PathRun(s: string, n: nat): (k: nat)
    requires n <= |s|
    ensures n + k <= |s|
    ensures forall i :: n <= i < n + k ==> IsPathChar(s[i])
    ensures n + k < |s| ==> !IsPathChar(s[n + k])
    decreases |s| - n
  {
    if n == |s| || !IsPathChar(s[n]) then 0 else 1 + PathRun(s, n + 1)
  }

  /** The number of slashes from `n` on. */
  function SlashRun(s: string, n: nat): (k: nat)
    requires n <= |s|
    ensures n + k <= |s|
    ensures forall i :: n <= i < n + k ==> s[i] == '/'
    ensures n + k < |s| ==> s[n + k] != '/'
    decreases |s| - n
  {
    if n == |s| || s[n] != '/' then 0 else 1 + SlashRun(s, n + 1)
  }

  /** `[\w\-\.]+(\/)+[\w\-\.]+\/?$` from position `n`. No character of the
      path class is a slash, so each run is taken whole: a shorter run
      would leave the next part facing a character it cannot match. */
  predicate PermalinkPathAt(s: string, n: nat)
    requires n <= |s|
  {
    var a := PathRun(s, n);
    a >= 1 &&
    var b := SlashRun(s, n + a);
    b >= 1 &&
    var c := PathRun(s, n + a + b);
    var e := n + a + b + c;
    c >= 1 && (EndsBefore(s, e) || (e < |s| && s[e] == '/' && EndsBefore(s, e + 1)))
  }

  predicate SoundCloudHostAt(s: string, n: nat) {
    LiteralAt(s, n, "soundcloud.com/") && PermalinkPathAt(s, n + 15)
  }

  /** After `(www.)?`: an optional `m.` and the host. */
  predicate SoundCloudAfterWww(s: string, n: nat) {
    SoundCloudHostAt(s, n) || (LiteralAt(s, n, "m.") && SoundCloudHostAt(s, n + 2))
  }

  predicate SoundCloudAfterScheme(s: string, n: nat) {
    SoundCloudAfterWww(s, n)
    || (LiteralAt(s, n, "www") && n + 3 < |s| && IsDot(s[n + 3]) && SoundCloudAfterWww(s, n + 4))
  }

  predicate IsSoundCloudUrl(s: string) {
    SoundCloudAfterScheme(s, 0)
    || (LiteralAt(s, 0, "http://") && SoundCloudAfterScheme(s, 7))
    || (LiteralAt(s, 0, "https://") && SoundCloudAfterScheme(s, 8))
  }

  /** Whether `s` full-matches the URL pattern of platform `p`. */
  predicate Matches(p: Platform, s: string) {
    match p
    case YOUTUBE => IsYouTubeUrl(s)
    case SPOTIFY => IsSpotifyUrl(s)
    case SOUNDCLOUD => IsSoundCloudUrl(s)
  }

  /** `_infer_from_url`: the if-ladder YouTube, Spotify, SoundCloud. */
  function InferFromUrl(s: string): (r: Option<Platform>)
    ensures r.None? <==> (!IsYouTubeUrl(s) && !IsSpotifyUrl(s) && !IsSoundCloudUrl(s))
    ensures r == Some(YOUTUBE) <==> IsYouTubeUrl(s)
  {
    if IsYouTubeUrl(s) then Some(YOUTUBE)
    else if IsSpotifyUrl(s) then Some(SPOTIFY)
    else if IsSoundCloudUrl(s) then Some(SOUNDCLOUD)
    else None
  }

  // ---- mutual exclusion of the three patterns

  /** The character that opens the host part after scheme end `n`
      tells the patterns apart: youtube hosts open with 'y' or "www.y",
      the spotify host with 'o', soundcloud hosts with 's', 'm' or
      "www" + any + 's'/'m'. */
  lemma YouTubeOpening(s: string, n: nat)
    requires YouTubeAfterScheme(s, n)
    ensures n + 5 < |s|
    ensures s[n] == 'y' || (s[n] == 'w' && s[n + 3] == '.' && s[n + 4] == 'y')
  {
    if YouTubeHostAt(s, n, "www.youtube.com") {
      assert s[n..n + 16][0] == 'w' && s[n..n + 16][3] == '.' && s[n..n + 16][4] == 'y';
    } else if YouTubeHostAt(s, n, "youtube.com") {
      assert s[n..n + 12][0] == 'y';
    } else {
      assert s[n..n + 9][0] == 'y';
    }
  }

  lemma SpotifyOpening(s: string, n: nat)
    requires SpotifyAfterScheme(s, n)
    ensures n + 5 < |s| && s[n] == 'o'
  {
    assert s[n..n + 4][0] == 'o';
  }

  lemma SoundCloudHostOpening(s: string, n: nat)
    requires SoundCloudAfterWww(s, n)
    ensures n + 1 < |s| && (s[n] == 's' || s[n] == 'm')
  {
    if SoundCloudHostAt(s, n) {
      assert s[n..n + 15][0] == 's';
    } else {
      assert s[n..n + 2][0] == 'm';
    }
  }

  lemma SoundCloudOpening(s: string, n: nat)
    requires SoundCloudAfterScheme(s, n)
    ensures n + 5 < |s|
    ensures s[n] == 's' || s[n] == 'm' || (s[n] == 'w' && (s[n + 4] == 's' || s[n + 4] == 'm'))
  {
    if SoundCloudAfterWww(s, n) {
      SoundCloudHostOpening(s, n);
      if SoundCloudHostAt(s, n) {
        assert |s| >= n + 16;
      } else {
        assert |s| >= n + 18;
      }
    } else {
      assert s[n..n + 3][0] == 'w';
      SoundCloudHostOpening(s, n + 4);
      if SoundCloudHostAt(s, n + 4) {
        assert |s| >= n + 20;
      } else {
        assert |s| >= n + 22;
      }
    }
  }

  /** Where the scheme of a URL of any of the three patterns ends: the
      host part opens with a letter that neither scheme has in that
      place, so the scheme is determined by the string. */
  lemma SchemeDetermined(s: string, n: nat, m: nat)
    requires SchemeEnd(s, n) && SchemeEnd(s, m)
    requires n + 5 < |s| && m + 5 < |s|
    requires s[n] in {'y', 'w', 'o', 's', 'm'} && s[m] in {'y', 'w', 'o', 's', 'm'}
    ensures n == m
  {
    if n == 7 || n == 8 { assert s[0..4][0] == 'h' && s[0..8][4] == s[4]; }
    if m == 7 || m == 8 { assert s[0..4][0] == 'h' && s[0..8][4] == s[4]; }
    if n == 7 { assert s[0..7][4] == ':'; }
    if m == 7 { assert s[0..7][4] == ':'; }
    if n == 8 { assert s[0..8][4] == 's' && s[0..8][5] == ':'; }
    if m == 8 { assert s[0..8][4] == 's' && s[0..8][5] == ':'; }
  }

  /** Every URL pattern some string matches is matched after one of the
      scheme ends. */
  lemma YouTubeScheme(s: string) returns (n: nat)
    requires IsYouTubeUrl(s)
    ensures SchemeEnd(s, n) && YouTubeAfterScheme(s, n)
  {
    if YouTubeAfterScheme(s, 0) { n := 0; }
    else if LiteralAt(s, 0, "http://") && YouTubeAfterScheme(s, 7) { n := 7; }
    else { n := 8; }
  }

  lemma SpotifyScheme(s: string) returns (n: nat)
    requires IsSpotifyUrl(s)
    ensures SchemeEnd(s, n) && SpotifyAfterScheme(s, n)
  {
    if SpotifyAfterScheme(s, 0) { n := 0; }
    else if LiteralAt(s, 0, "http://") && SpotifyAfterScheme(s, 7) { n := 7; }
    else { n := 8; }
  }

  lemma SoundCloudScheme(s: string) returns (n: nat)
    requires IsSoundCloudUrl(s)
    ensures SchemeEnd(s, n) && SoundCloudAfterScheme(s, n)
  {
    if SoundCloudAfterScheme(s, 0) { n := 0; }
    else if LiteralAt(s, 0, "http://") && SoundCloudAfterScheme(s, 7) { n := 7; }
    else { n := 8; }
  }

  /** The comment at tracks.py:109 holds: no string matches two of the
      patterns. */
  lemma PatternsExclusive(s: string)
    ensures !(IsYouTubeUrl(s) && IsSpotifyUrl(s))
    ensures !(IsYouTubeUrl(s) && IsSoundCloudUrl(s))
    ensures !(IsSpotifyUrl(s) && IsSoundCloudUrl(s))
  {
    if IsYouTubeUrl(s) && IsSpotifyUrl(s) {
      var n := YouTubeScheme(s);
      var m := SpotifyScheme(s);
      YouTubeOpening(s, n);
      SpotifyOpening(s, m);
      SchemeDetermined(s, n, m);
      assert false;
    }
    if IsYouTubeUrl(s) && IsSoundCloudUrl(s) {
      var n := YouTubeScheme(s);
      var m := SoundCloudScheme(s);
      YouTubeOpening(s, n);
      SoundCloudOpening(s, m);
      SchemeDetermined(s, n, m);
      assert false;
    }
    if IsSpotifyUrl(s) && IsSoundCloudUrl(s) {
      var n := SpotifyScheme(s);
      var m := SoundCloudScheme(s);
      SpotifyOpening(s, n);
      SoundCloudOpening(s, m);
      SchemeDetermined(s, n, m);
      assert false;
    }
  }

  /** Because the patterns exclude each other, the ladder's order does
      not matter: the classifier names a platform exactly when that
      platform's pattern matches, and at most one does. */
  lemma InferFromUrlExact(s: string, p: Platform)
    ensures InferFromUrl(s) == Some(p) <==> Matches(p, s)
  {
    PatternsExclusive(s);
  }

  lemma AtMostOnePattern(s: string, p: Platform, q: Platform)
    requires Matches(p, s) && Matches(q, s)
    ensures p == q
  {
    InferFromUrlExact(s, p);
    InferFromUrlExact(s, q);
  }

  // ================================================================ tracks

  /** An immutable resolved track (the FFmpeg audio source built in the
      constructor is not part of the model). */
  datatype Track = Track(
    platform: Platform,
    title: string,
    artist: string,
    collab: Option<string>,
    url: string,
    streamUrl: string)

  // ---- what the platform clients answer

  /** The fields of a youtube-dl info dict that the helpers read. */
  datatype VideoInfo = VideoInfo(title: string, uploader: string, webpageUrl: string, url: string)

  /** An info dict: a single video, or a playlist with `entries`. */
  datatype InfoDict = Video(info: VideoInfo) | Playlist(entries: seq<VideoInfo>)

  /** A tekore `FullTrack`: its name, its artists' names in order and
      `external_urls["spotify"]`. */
  datatype SpotifyTrack = SpotifyTrack(name: string, artists: seq<string>, spotifyUrl: string)

  /** What `sclib.SoundcloudAPI.resolve` resolves a URL to. */
  datatype SoundCloudResource =
    | SoundCloudTrack(title: string, artist: string, permalinkUrl: string, streamUrl: string)
    | OtherResource

  /** The outcome of `soundcloud.resolve(url)`. */
  datatype SoundCloudAnswer = RaisedTypeError | Nothing | Resolved(resource: SoundCloudResource)

  /** The platform clients, as functions of the string they are given:
      `ytdl.extract_info`, the first page of `spotify.search(query,
      limit=1)`, `spotify.track(tekore.from_url(url))` (None when tekore
      raises), and `soundcloud.resolve`. */
  datatype Remote = Remote(
    extractInfo: string -> Option<InfoDict>,
    spotifySearch: string -> seq<SpotifyTrack>,
    spotifyTrackByUrl: string -> Option<SpotifyTrack>,
    soundcloudResolve: string -> SoundCloudAnswer)

  // ---- helpers

  /** `_get_info_dict`: the info of the first video for a query. */
  function GetInfoDict(remote: Remote, query: string): (r: Result<VideoInfo, Error>)
    ensures remote.extractInfo(query).None? ==> r == Err(NotFoundError)
    ensures remote.extractInfo(query).Some? && remote.extractInfo(query).value.Video? ==>
      r == Ok(remote.extractInfo(query).value.info)
    ensures remote.extractInfo(query).Some? && remote.extractInfo(query).value.Playlist? ==>
      var entries := remote.extractInfo(query).value.entries;
      r == if |entries| == 0 then Err(Unhandled("IndexError")) else Ok(entries[0])
  {
    match remote.extractInfo(query)
    case None => Err(NotFoundError)
    case Some(Video(info)) => Ok(info)
    case Some(Playlist(entries)) =>
      if |entries| == 0 then Err(Unhandled("IndexError")) else Ok(entries[0])
  }

  /** The YouTube search used to find a stream for a Spotify track. */
  function StreamQuery(title: string, artist: string, collab: Option<string>): string {
    title + " " + artist + " " + collab.GetOr("")
  }

  /** `_unpack_spotify_track` followed by the `Track` constructor. */
  function UnpackSpotifyTrack(remote: Remote, t: SpotifyTrack): (r: Result<Track, Error>)
    ensures |t.artists| == 0 ==> r == Err(Unhandled("IndexError"))
    ensures r.Ok? ==>
      && |t.artists| >= 1
      && r.value.platform == SPOTIFY
      && r.value.title == t.name
      && r.value.artist == t.artists[0]
      && r.value.collab == (if |t.artists| > 1 then Some(t.artists[1]) else None)
      && r.value.url == t.spotifyUrl
      && var data := GetInfoDict(remote, StreamQuery(r.value.title, r.value.artist, r.value.collab));
         data.Ok? && r.value.streamUrl == data.value.url
    ensures |t.artists| >= 1 ==>
      var collab := if |t.artists| > 1 then Some(t.artists[1]) else None;
      r.Err? <==> GetInfoDict(remote, StreamQuery(t.name, t.artists[0], collab)).Err?
  {
    if |t.artists| == 0 then Err(Unhandled("IndexError"))
    else
      var artist := t.artists[0];
      var collab := if |t.artists| > 1 then Some(t.artists[1]) else None;
      var data :- GetInfoDict(remote, StreamQuery(t.name, artist, collab));
      Ok(Track(SPOTIFY, t.name, artist, collab, t.spotifyUrl, data.url))
  }

  /** `make_youtube_track`. */
  function MakeYouTubeTrack(remote: Remote, queryOrUrl: string): (r: Result<Track, Error>)
    ensures r.Err? <==> GetInfoDict(remote, queryOrUrl).Err?
    ensures r.Err? ==> r.error == GetInfoDict(remote, queryOrUrl).error
    ensures r.Ok? ==>
      var data := GetInfoDict(remote, queryOrUrl).value;
      r.value == Track(YOUTUBE, data.title, data.uploader, None, data.webpageUrl, data.url)
  {
    var data :- GetInfoDict(remote, queryOrUrl);
    Ok(Track(YOUTUBE, data.title, data.uploader, None, data.webpageUrl, data.url))
  }

  /** `make_spotify_track_from_search`. */
  function MakeSpotifyTrackFromSearch(remote: Remote, query: string): (r: Result<Track, Error>)
    ensures |remote.spotifySearch(query)| == 0 ==> r == Err(NotFoundError)
    ensures |remote.spotifySearch(query)| > 0 ==> r == UnpackSpotifyTrack(remote, remote.spotifySearch(query)[0])
  {
    var items := remote.spotifySearch(query);
    if |items| == 0 then Err(NotFoundError) else UnpackSpotifyTrack(remote, items[0])
  }

  /** `make_spotify_track_from_url`. */
  function MakeSpotifyTrackFromUrl(remote: Remote, url: string): (r: Result<Track, Error>)
    ensures remote.spotifyTrackByUrl(url).None? ==> r == Err(Unhandled("tekore"))
    ensures remote.spotifyTrackByUrl(url).Some? ==> r == UnpackSpotifyTrack(remote, remote.spotifyTrackByUrl(url).value)
  {
    match remote.spotifyTrackByUrl(url)
    case None => Err(Unhandled("tekore"))
    case Some(t) => UnpackSpotifyTrack(remote, t)
  }

  /** `make_soundcloud_track_from_url`. */
  function MakeSoundCloudTrackFromUrl(remote: Remote, url: string): (r: Result<Track, Error>)
    ensures remote.soundcloudResolve(url) == RaisedTypeError ==> r == Err(ValueError)
    ensures remote.soundcloudResolve(url) == Nothing ==> r == Err(NotFoundError)
    ensures remote.soundcloudResolve(url) == Resolved(OtherResource) ==> r == Err(ValueError)
    ensures r.Ok? <==> remote.soundcloudResolve(url).Resolved? && remote.soundcloudResolve(url).resource.SoundCloudTrack?
    ensures r.Ok? ==>
      var res := remote.soundcloudResolve(url).resource;
      r.value == Track(SOUNDCLOUD, res.title, res.artist, None, res.permalinkUrl, res.streamUrl)
  {
    match remote.soundcloudResolve(url)
    case RaisedTypeError => Err(ValueError)
    case Nothing => Err(NotFoundError)
    case Resolved(OtherResource) => Err(ValueError)
    case Resolved(SoundCloudTrack(title, artist, permalink, stream)) =>
      Ok(Track(SOUNDCLOUD, title, artist, None, permalink, stream))
  }

  // ================================================================ from_query

  /** The helper `from_query` hands the input to. */
  datatype Helper = YouTubeHelper | SpotifySearchHelper | SpotifyUrlHelper | SoundCloudUrlHelper

  /** The platform the input is resolved on: a recognised URL overrides
      the hint. */
  function ResolvedPlatform(queryOrUrl: string, hint: Platform): Platform {
    InferFromUrl(queryOrUrl).GetOr(hint)
  }

  /** The `match` of `from_query`, which picks a helper or refuses a
      SoundCloud search before any platform client is asked. */
  function SelectHelper(queryOrUrl: string, hint: Platform): (r: Result<Helper, Error>)
    ensures r == Err(ValueError) <==> ResolvedPlatform(queryOrUrl, hint) == SOUNDCLOUD && InferFromUrl(queryOrUrl).None?
    ensures r.Err? ==> r.error == ValueError
    ensures r == Ok(YouTubeHelper) <==> ResolvedPlatform(queryOrUrl, hint) == YOUTUBE
    ensures r == Ok(SpotifySearchHelper) <==> ResolvedPlatform(queryOrUrl, hint) == SPOTIFY && InferFromUrl(queryOrUrl).None?
    ensures r == Ok(SpotifyUrlHelper) <==> InferFromUrl(queryOrUrl) == Some(SPOTIFY)
    ensures r == Ok(SoundCloudUrlHelper) <==> InferFromUrl(queryOrUrl) == Some(SOUNDCLOUD)
  {
    var test := InferFromUrl(queryOrUrl);
    var platform := test.GetOr(hint);
    match platform
    case YOUTUBE => Ok(YouTubeHelper)
    case SPOTIFY => if test.None? then Ok(SpotifySearchHelper) else Ok(SpotifyUrlHelper)
    case SOUNDCLOUD => if test.None? then Err(ValueError) else Ok(SoundCloudUrlHelper)
  }

  /** `run_in_executor(None, func, query_or_url)`: each helper builds
      tracks of its own platform, and only the Spotify ones can carry a
      collab. */
  function RunHelper(h: Helper, remote: Remote, queryOrUrl: string): (r: Result<Track, Error>)
    ensures r.Ok? ==>
      r.value.platform == if h == YouTubeHelper then YOUTUBE else if h == SoundCloudUrlHelper then SOUNDCLOUD else SPOTIFY
    ensures r.Ok? && r.value.collab.Some? ==> h == SpotifySearchHelper || h == SpotifyUrlHelper
  {
    match h
    case YouTubeHelper => MakeYouTubeTrack(remote, queryOrUrl)
    case SpotifySearchHelper => MakeSpotifyTrackFromSearch(remote, queryOrUrl)
    case SpotifyUrlHelper => MakeSpotifyTrackFromUrl(remote, queryOrUrl)
    case SoundCloudUrlHelper => MakeSoundCloudTrackFromUrl(remote, queryOrUrl)
  }

  /** `Track.from_query`, with the hint defaulting to YouTube. */
  function FromQuery(remote: Remote, queryOrUrl: string, hint: Platform := YOUTUBE): (r: Result<Track, Error>)
    ensures r.Ok? ==> r.value.platform == ResolvedPlatform(queryOrUrl, hint)
  {
    var helper :- SelectHelper(queryOrUrl, hint);
    RunHelper(helper, remote, queryOrUrl)
  }

  /** A recognised URL decides the platform and the hint plays no part. */
  lemma UrlOverridesHint(remote: Remote, url: string, p: Platform, hint: Platform)
    requires Matches(p, url)
    ensures FromQuery(remote, url, hint) == FromQuery(remote, url, p)
    ensures FromQuery(remote, url, hint).Ok? ==> FromQuery(remote, url, hint).value.platform == p
  {
    InferFromUrlExact(url, p);
  }

  /** A non-URL resolves on the hint; YouTube, the default, always uses
      `make_youtube_track`. */
  lemma SearchUsesHint(remote: Remote, query: string, hint: Platform)
    requires InferFromUrl(query).None?
    ensures FromQuery(remote, query) == MakeYouTubeTrack(remote, query)
    ensures hint == YOUTUBE ==> FromQuery(remote, query, hint) == MakeYouTubeTrack(remote, query)
    ensures hint == SPOTIFY ==> FromQuery(remote, query, hint) == MakeSpotifyTrackFromSearch(remote, query)
  {
  }

  /** YouTube requests go to `make_youtube_track` whether or not the
      input is a URL. */
  lemma YouTubeAlwaysMakeYouTubeTrack(remote: Remote, queryOrUrl: string, hint: Platform)
    requires ResolvedPlatform(queryOrUrl, hint) == YOUTUBE
    ensures FromQuery(remote, queryOrUrl, hint) == MakeYouTubeTrack(remote, queryOrUrl)
  {
  }

  /** A SoundCloud search is refused with ValueError, and the answer does
      not depend on the platform clients at all. */
  lemma SoundCloudSearchRejected(remote: Remote, other: Remote, query: string)
    requires InferFromUrl(query).None?
    ensures FromQuery(remote, query, SOUNDCLOUD) == Err(ValueError)
    ensures FromQuery(remote, query, SOUNDCLOUD) == FromQuery(other, query, SOUNDCLOUD)
  {
  }

  /** Spotify: the search helper when no URL was recognised, the URL
      helper for a Spotify URL. */
  lemma SpotifyDispatch(remote: Remote, queryOrUrl: string, hint: Platform)
    ensures InferFromUrl(queryOrUrl).None? && hint == SPOTIFY ==>
      FromQuery(remote, queryOrUrl, hint) == MakeSpotifyTrackFromSearch(remote, queryOrUrl)
    ensures IsSpotifyUrl(queryOrUrl) ==>
      FromQuery(remote, queryOrUrl, hint) == MakeSpotifyTrackFromUrl(remote, queryOrUrl)
  {
    InferFromUrlExact(queryOrUrl, SPOTIFY);
  }

  /** Every resolved track carries the collab its platform allows:
      none for YouTube and SoundCloud, the second Spotify artist when
      there is one. */
  lemma CollabOnlyFromSpotify(remote: Remote, queryOrUrl: string, hint: Platform)
    requires FromQuery(remote, queryOrUrl, hint).Ok?
    ensures FromQuery(remote, queryOrUrl, hint).value.platform != SPOTIFY ==>
      FromQuery(remote, queryOrUrl, hint).value.collab.None?
  {
  }

  /** An empty Spotify search is NotFoundError, and so is a Spotify track
      whose second-stage YouTube lookup finds nothing. */
  lemma SpotifyNotFound(remote: Remote, query: string, t: SpotifyTrack)
    ensures |remote.spotifySearch(query)| == 0 ==> MakeSpotifyTrackFromSearch(remote, query) == Err(NotFoundError)
    ensures |t.artists| >= 1 ==>
      var collab := if |t.artists| > 1 then Some(t.artists[1]) else None;
      remote.extractInfo(StreamQuery(t.name, t.artists[0], collab)).None? ==>
        UnpackSpotifyTrack(remote, t) == Err(NotFoundError)
  {
  }
}
