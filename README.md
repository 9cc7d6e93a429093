# tacocat: a verified model of the music pipeline and the /logs command

tacocat is a Discord bot. This project models two of its parts in Dafny
and proves what their code promises.

- The music request pipeline:
  - the track resolver of `bot/commands/music/tracks.py`. It classifies
    URLs, dispatches to a platform helper and builds the `Track` record;
  - the player front-end of `bot/commands/music/player.py`. It reports a
    failed lookup, builds the "Now playing" embed and starts playback;
  - the music cog of `bot/commands/music/cog.py`, which covers
    `_react_either`, the checks of `_join_channel`, the guild-to-player
    registry and the /join, /pause, /resume, /skip and /play callbacks.
- The developer `/logs` command:
  - the backend of `bot/tacocat/cogs/developer/logs_cmd.py`. It selects
    level names, builds the line pattern, filters lines and chooses the
    response;
  - the argument defaulting and superuser gate of
    `bot/commands/developer/cog.py`;
  - the older backend, `bot/tacocat/cogs/developer/logs.py`.
- The helpers of `bot/utils.py`:
  - `detail_call`, `render_timestamp` and `MESSAGE_LENGTH_LIMIT`;
  - the `is_dev` and `is_superuser` checks;
  - `has_humans`.

The platform clients (youtube-dl, tekore, sclib) are an oracle, the
`Remote` datatype. It has one function field per call the helpers make.
Reading a log file is a function `read` from path to content. The
program's root directory is a parameter `root`. The discord.py objects
the code uses are modelled in `Discord.dfy`:

- the voice client is a class with `connected`, `channel`, a playback
  state and the list of device calls made on it;
- the guild holds the voice client;
- the command context collects the replies, in order.

Python's string behaviour that the code relies on is in `Text.dfy`. That
covers `split`, `join`, `isspace`, `repr`, `str(int)` and
`os.path.basename`.

The three URL patterns are written by hand as string predicates
(`Tracks.IsYouTubeUrl`, `Tracks.IsSpotifyUrl`, `Tracks.IsSoundCloudUrl`).
They follow the regexes of `tracks.py:34-37` piece by piece:

- the optional scheme;
- the unescaped dots of the Spotify host, which match any character but
  a newline;
- the `$` anchor, which also matches before one final newline.

The log-line pattern `^.*\[(?:N1|…) *\].*$` was compiled with MULTILINE.
Its `findall` is modelled as keeping the lines of the content that hold
a `[NAME   ]` tag for a selected name.

`play_track` plays at once; there is no queue or scheduling loop, and
`skip` only stops the device.

## Model

| member | source | states |
|---|---|---|
| Tracks.Value | bot/commands/music/tracks.py:24-28 | each platform's user-facing value is "YouTube", "Spotify" or "SoundCloud" |
| Tracks.ValueInjective | bot/commands/music/tracks.py:24-28 | two platforms have the same value exactly when they are the same platform |
| Tracks.InferFromUrl | bot/commands/music/tracks.py:99-120 | the classifier returns None exactly when no pattern matches, and YOUTUBE exactly when the YouTube pattern matches |
| Tracks.PatternsExclusive | bot/commands/music/tracks.py:34-37 | no string matches two of the three URL patterns, which is the mutual-exclusion claim of the comment at line 109 |
| Tracks.IsYouTubeUrl | bot/commands/music/tracks.py:34 | YOUTUBE_REGEX as a string predicate; PatternsExclusive and InferFromUrlExact state how it relates to the other two |
| Tracks.IsSpotifyUrl | bot/commands/music/tracks.py:35 | SPOTIFY_REGEX, with its unescaped dots, as a string predicate; PatternsExclusive states it excludes the other two |
| Tracks.IsSoundCloudUrl | bot/commands/music/tracks.py:36-37 | SOUNDCLOUD_REGEX as a string predicate; PatternsExclusive states it excludes the other two |
| Tracks.InferFromUrlExact | bot/commands/music/tracks.py:109-120 | the if-ladder names platform p exactly when p's pattern matches, so the order of the tests does not matter |
| Tracks.AtMostOnePattern | bot/commands/music/tracks.py:34-37 | if the patterns of p and q both match a string, then p and q are the same platform |
| Tracks.GetInfoDict | bot/commands/music/tracks.py:73-96 | no data gives NotFoundError. A playlist gives its first entry, and an empty playlist gives IndexError. A single video is returned as is |
| Tracks.UnpackSpotifyTrack | bot/commands/music/tracks.py:123-157 | the result is a SPOTIFY track: its artist is the first listed artist, its collab is the second or None, and its url is the Spotify URL. Its stream URL comes from a YouTube lookup of "title artist collab". The track fails exactly when there is no artist or that lookup fails |
| Tracks.MakeYouTubeTrack | bot/commands/music/tracks.py:289-306 | the result is a YOUTUBE track built from the info dict (title, uploader, webpage_url, url) with no collab; a failed lookup's error is passed on |
| Tracks.MakeSpotifyTrackFromSearch | bot/commands/music/tracks.py:309-323 | an empty search gives NotFoundError; otherwise the first hit is unpacked |
| Tracks.MakeSpotifyTrackFromUrl | bot/commands/music/tracks.py:326-334 | the track the URL names is unpacked; a failing tekore call is an unhandled error |
| Tracks.MakeSoundCloudTrackFromUrl | bot/commands/music/tracks.py:337-365 | TypeError and a non-track resource give ValueError and no result gives NotFoundError. The result succeeds exactly for a resolved track, which becomes a SOUNDCLOUD track without collab |
| Tracks.SelectHelper | bot/commands/music/tracks.py:250-283 | the helper chosen and the ValueError case, each as an if-and-only-if of the classifier's result and the hint |
| Tracks.FromQuery | bot/commands/music/tracks.py:226-286 | a resolved track carries the resolved platform: the recognised URL's, or else the hint |
| Tracks.RunHelper | bot/commands/music/tracks.py:285-286 | each helper builds tracks of its own platform, and only the two Spotify helpers can give a track a collab |
| Tracks.UrlOverridesHint | bot/commands/music/tracks.py:250-253 | for a URL matching p's pattern, the result is the same whatever the hint, and any track found is on p |
| Tracks.SearchUsesHint | bot/commands/music/tracks.py:226-260 | a non-URL is resolved on the hint. The default hint is YOUTUBE, which uses make_youtube_track, and a SPOTIFY hint uses the search helper |
| Tracks.YouTubeAlwaysMakeYouTubeTrack | bot/commands/music/tracks.py:256-260 | whenever the resolved platform is YOUTUBE, from_query is make_youtube_track of the input |
| Tracks.SoundCloudSearchRejected | bot/commands/music/tracks.py:269-274 | a SoundCloud search that is not a URL is ValueError, whatever the platform clients would answer |
| Tracks.SpotifyDispatch | bot/commands/music/tracks.py:262-267 | Spotify without a recognised URL uses the search helper, and a Spotify URL uses the URL helper |
| Tracks.CollabOnlyFromSpotify | bot/commands/music/tracks.py:289-365 | a resolved track that is not from Spotify has no collab |
| Tracks.SpotifyNotFound | bot/commands/music/tracks.py:309-323 | an empty Spotify search is NotFoundError, and so is a Spotify track whose YouTube lookup finds nothing |
| Discord.PauseResumeIdempotent | bot/commands/music/cog.py:222-226 | pausing twice is pausing once, and resuming twice is resuming once |
| Discord.Next | bot/commands/music/cog.py:240 | the device transitions of `pause`, `resume`, `stop` and `play`; PauseResumeIdempotent states that pausing and resuming are idempotent |
| Discord.PlayRefusal | bot/commands/music/player.py:139-141 | `vc.play` is refused exactly when the client is not connected or is already playing, and a refusal is a ClientException |
| Discord.VoiceClient.Call | bot/commands/music/cog.py:240 | pause, resume and stop change the state by the device transition, append the call, and keep the connection |
| Discord.VoiceClient.Play | bot/commands/music/player.py:139-141 | a play that is not refused starts the track and appends the call; a refused play changes nothing |
| Discord.VoiceClient.MoveTo | bot/commands/music/cog.py:119-121 | moving to a channel keeps the playback state and the calls |
| Discord.Guild.Connect | bot/commands/music/cog.py:116-121 | connecting creates a fresh, stopped voice client when there is none, and otherwise moves the existing one, keeping its state |
| Discord.Context.VoiceClientOf | bot/commands/music/cog.py:104 | `ctx.voice_client` is the guild's voice client, none in a DM |
| Discord.Context.Status | bot/commands/music/cog.py:104-108 | the snapshot of the voice client is absent exactly when there is no voice client |
| Discord.Context.Respond | bot/commands/music/cog.py:56 | a reply is appended to what the caller has received |
| Utils.DetailCall | bot/utils.py:20-67 | the detail string begins with "author @ #channel @ " |
| Utils.CommandName | bot/utils.py:45-64 | the full command name; CommandNameParts and GroupWordsJoined state its parts |
| Utils.DetailCallShape | bot/utils.py:42-67 | the whole string is "{context} called {name} ({method}).", where the context is "author @ #channel @ <DM>" without a guild and ends in the quoted guild name with one |
| Utils.CommandNameParts | bot/utils.py:46-64 | with a cog the name starts with "cog::"; without a command it is "<Unknown>" (after "cog::" when there is a cog); with a command it ends in the command's name, is just that name with no parent and no cog, and ends in "<Unknown>:name" when the parent has no qualified name |
| Utils.DetailCallMethod | bot/utils.py:66-67 | the string ends in " (slash)." exactly for an interaction and in " (prefix)." exactly otherwise |
| Utils.DetailCallExample | bot/utils.py:23-24 | the docstring's example is what /logs bot, run as a slash command in the Developer cog, produces |
| Utils.GroupWordsJoined | bot/utils.py:51-64 | a parent group whose qualified name is words joined by spaces gives those words joined by ':' then ":name", with "cog::" in front when there is a cog |
| Utils.WordsOfJoin | bot/utils.py:56 | `split()` of space-joined words gives back the words |
| Utils.RenderTimestamp | bot/utils.py:86-106 | the markup starts with "<t:" and ends with ">" |
| Utils.ParseRenderTimestamp | bot/utils.py:103-106 | the time and the format can be read back from the markup, so "<t:N>" is DEFAULT and "<t:N:c>" is the format with code c |
| Utils.DevIsSuperuser | bot/utils.py:113-125 | the developer passes the superuser check, and anyone who passes it without being in the superuser set is the developer |
| Utils.IsDev | bot/utils.py:113-117 | the caller is the developer; DevIsSuperuser relates it to IsSuperuser |
| Utils.IsSuperuser | bot/utils.py:120-125 | the caller is the developer or in the superuser set; DevIsSuperuser states both directions |
| Utils.HasHumansIff | bot/utils.py:145-147 | `has_humans` holds exactly when some member is not a bot, and is false for an empty channel |
| Utils.HasHumans | bot/utils.py:145-147 | the scan over the channel's members; HasHumansIff states what it answers |
| Text.Repr | bot/commands/music/player.py:46 | `repr` puts the same quote character at both ends |
| Text.WordsAreWords | bot/utils.py:56 | every word of `str.split()` is non-empty and holds no whitespace |
| Text.JoinSplit | bot/tacocat/cogs/developer/logs_cmd.py:213 | joining the lines of a split with the same separator gives back the text |
| Text.SplitJoin | bot/tacocat/cogs/developer/logs_cmd.py:213 | splitting the join of newline-free lines gives back those lines |
| Text.BasenameOfJoin | bot/tacocat/cogs/developer/logs_cmd.py:218-221 | the base name of "dir/name" is the name |
| Text.ParseIntToString | bot/utils.py:104-106 | the rendering of an integer reads back as that integer |
| Player.GetTrack | bot/commands/music/player.py:42-55 | a failure embed is reported exactly for NotFoundError and ValueError. Any other error is passed on, and otherwise the track from_query returns is found |
| Player.SoundCloudSearchAdvised | bot/commands/music/player.py:49-55 | a SoundCloud search that is not a URL is answered with the "please use the URL" message |
| Player.FoundOnResolvedPlatform | bot/commands/music/player.py:42-43 | a track that is found is on the resolved platform |
| Player.NowPlayingEmbed | bot/commands/music/player.py:58-74 | the description is the title, the title is "Now playing from " + the platform value, the url is the track's, and the footer starts with the artist |
| Player.NowPlayingFooter | bot/commands/music/player.py:70-73 | the footer is the artist exactly when there is no collab, and "artist, collab" otherwise |
| Player.Player.Vc | bot/commands/music/player.py:93-109 | InvariantError exactly when the guild has no voice client, and otherwise that client |
| Player.Player.PlayTrack | bot/commands/music/player.py:113-148 | a failed lookup sends only its report, and other errors send nothing. A found track is played once on the guild's voice client; only if that play is not refused is a now-playing embed for that same track sent. A missing voice client is InvariantError |
| MusicCog.ReactEither | bot/commands/music/cog.py:24-58 | a slash invocation with neither content nor embed is InvariantError. Otherwise a slash invocation sends the message and a text invocation only reacts |
| MusicCog.ReactWithEmbedAnswers | bot/commands/music/cog.py:189-196 | a callback that passes an embed always answers |
| MusicCog.DecideJoin | bot/commands/music/cog.py:87-114 | with no channel known the caller is told to connect first; a connection goes to the requested channel, or else the caller's |
| MusicCog.JoinRefusedIff | bot/commands/music/cog.py:64-74 | the join is refused exactly when there is no channel to join, or the bot is connected where a human listens and the target differs |
| MusicCog.OnlyBotsDoNotBlock | bot/commands/music/cog.py:106-109 | a bot whose channel holds only bots is always moved to the target |
| MusicCog.RejoinSameChannel | bot/commands/music/cog.py:109 | asking for the channel the bot is in always succeeds |
| MusicCog.InUseNamesBusyChannel | bot/commands/music/cog.py:109-114 | the refusal for a bot in use names the busy channel |
| MusicCog.JoinChannel | bot/commands/music/cog.py:61-126 | a refusal sends the embed and touches no voice client. A success returns the target and the bot is connected there, on a fresh stopped client or on the moved one with its state kept |
| MusicCog.PlatformFromChoice | bot/commands/music/cog.py:335-343 | an accepted choice is the platform's value; anything else is InvariantError |
| MusicCog.PlatformChoiceRoundTrip | bot/commands/music/cog.py:302-303 | every platform's value is accepted and chooses that platform |
| MusicCog.MusicCog.constructor | bot/commands/music/cog.py:135-139 | the registry starts empty |
| MusicCog.MusicCog.GetPlayer | bot/commands/music/cog.py:143-166 | a DM is InvariantError. A registered guild returns its player with the map unchanged. Otherwise a fresh player is stored under that guild only |
| MusicCog.MusicCog.Join | bot/commands/music/cog.py:198-218 | in a DM nothing happens (NotApplicableError). A refusal sends its embed and leaves the voice client as it was. A connection is acknowledged with "Connected to channel <#id>." or 👌: a new client is stopped with no calls, and a moved one keeps its state and calls |
| MusicCog.MusicCog.Control | bot/commands/music/cog.py:220-291 | with no voice client the caller is told nothing plays. Otherwise exactly one device call is made and acknowledged |
| MusicCog.MusicCog.Pause | bot/commands/music/cog.py:220-244 | one PauseCall, keeping the connection and channel, acknowledged "Player paused." or ⏸️; no voice client gives "Player is not playing anything." or ❓ |
| MusicCog.MusicCog.Resume | bot/commands/music/cog.py:246-270 | one ResumeCall, keeping the connection and channel, acknowledged "Player resumed." or ▶️; no voice client gives the not-playing answer |
| MusicCog.MusicCog.Skip | bot/commands/music/cog.py:272-291 | one StopCall leaving the device stopped, keeping the connection and channel, acknowledged "Track skipped." or ⏭️; no voice client gives the not-playing answer |
| MusicCog.MusicCog.Play | bot/commands/music/cog.py:293-348 | a failed join returns before the registry is touched, and a bad choice is InvariantError. Otherwise the guild's player is registered and plays the lookup's track. Playback fails with ClientException only if a track was already playing. A lookup error, a reported failure and a refusal leave the device's state and calls as they were before /play (stopped with no calls on a client the join created); a success appends exactly one PlayCall of the track |
| LogsCmd.LevelTables | bot/tacocat/cogs/developer/logs_cmd.py:72-90 | every level appears once; the level choices are the levels' names and values in declaration order; names and values are distinct |
| LogsCmd.ChoiceTables | bot/tacocat/cogs/developer/logs_cmd.py:36-70 | both LOG_CHOICES entries name a log file that `_get_log_path` accepts, and FILTER_CHOICES offers each comparison of `Constraints` but ALL exactly once |
| LogsCmd.SelectNames | bot/tacocat/cogs/developer/logs_cmd.py:112-116 | no more names than levels; which names are selected is stated by LogsCmd.SelectNamesSpec |
| LogsCmd.SelectNamesSpec | bot/tacocat/cogs/developer/logs_cmd.py:112-116 | a level's name is selected exactly when its value satisfies the comparison with the level, and only level names are selected |
| LogsCmd.ConstraintRelations | bot/tacocat/cogs/developer/logs_cmd.py:121-131 | EXACTLY selects what AT_LEAST and AT_MOST both select. ABOVE selects within AT_LEAST and BELOW within AT_MOST. AT_LEAST selects exactly what BELOW does not |
| LogsCmd.ExactlySelectsOne | bot/tacocat/cogs/developer/logs_cmd.py:130-131 | EXACTLY at a level's own value selects that one name |
| LogsCmd.AtLeastError | bot/tacocat/cogs/developer/logs_cmd.py:112-122 | "at least ERROR" selects ERROR, CRITICAL, ALERT in declaration order, and the pattern joins them with bars inside `^.*\[(?:` … `) *\].*$` |
| LogsCmd.CompileRegex | bot/tacocat/cogs/developer/logs_cmd.py:93-139 | ALL exactly gives `.*` and a value outside the enum is InvariantError. Any other constraint gives the level pattern, which includes a name exactly when its value satisfies the comparison |
| LogsCmd.KeepMatchingSpec | bot/tacocat/cogs/developer/logs_cmd.py:213 | the kept lines are exactly the lines of the content that match |
| LogsCmd.KeepMatchingAppend | bot/tacocat/cogs/developer/logs_cmd.py:213 | filtering goes line by line: the kept lines of a + b are those of a followed by those of b, so with KeepMatchingOne order and repeats are kept |
| LogsCmd.KeepMatchingOne | bot/tacocat/cogs/developer/logs_cmd.py:213 | a single line is kept exactly when it holds a selected tag |
| LogsCmd.KeepMatching | bot/tacocat/cogs/developer/logs_cmd.py:213 | the level pattern's findall keeps no more lines than there are; what it keeps is stated by KeepMatchingSpec and KeepMatchingAppend |
| LogsCmd.FindallAny | bot/tacocat/cogs/developer/logs_cmd.py:213 | findall of `.*` yields at least one match per line; AnyLineAddsNewline says which |
| LogsCmd.Findall | bot/tacocat/cogs/developer/logs_cmd.py:213 | `pattern.findall(content)` as written, on the lines of the content; EmptySelectionKeepsBrackets shows it on an empty selection |
| LogsCmd.FilterContent | bot/tacocat/cogs/developer/logs_cmd.py:213 | `"\n".join(pattern.findall(content))` as written; IntendedAgreesWhenSelected equates it with the corrected filter whenever a level is selected |
| LogsCmd.IntendedFindall | bot/tacocat/cogs/developer/logs_cmd.py:112-116 | the corrected findall, which keeps no line on an empty selection; IntendedFilterSound states what it keeps |
| LogsCmd.IntendedFilterContent | bot/tacocat/cogs/developer/logs_cmd.py:211-213 | the corrected filtered content; LevelFilterLines and LevelFilterIdempotent state its lines |
| LogsCmd.NoLevelSelected | bot/tacocat/cogs/developer/logs_cmd.py:126-129 | "Below DEBUG" and "Above CRITICAL" select no level |
| LogsCmd.EmptySelectionKeepsBrackets | bot/tacocat/cogs/developer/logs_cmd.py:112-116 | as written, "Below DEBUG" compiles to an empty group, and the line "queue: []" passes the filter |
| LogsCmd.IntendedFilterSound | bot/tacocat/cogs/developer/logs_cmd.py:112-116 | every line the corrected filter keeps has the tag of a level whose value satisfies the constraint; an empty selection keeps nothing |
| LogsCmd.IntendedAgreesWhenSelected | bot/tacocat/cogs/developer/logs_cmd.py:211-213 | when some level is selected, the corrected filter and the one as written give the same text |
| LogsCmd.LevelFilterLines | bot/tacocat/cogs/developer/logs_cmd.py:211-213 | the lines of the filtered text are exactly the matching lines of the log, or the one empty line when nothing matched |
| LogsCmd.LevelFilterKeepsTaggedLog | bot/tacocat/cogs/developer/logs_cmd.py:211-213 | a log whose every line carries a selected tag passes unchanged |
| LogsCmd.LevelFilterIdempotent | bot/tacocat/cogs/developer/logs_cmd.py:211-213 | filtering filtered text changes nothing |
| LogsCmd.AnyLineAddsNewline | bot/tacocat/cogs/developer/logs_cmd.py:119-120 | `.*` with findall is not the identity: a one-line log comes back followed by a newline |
| LogsCmd.LogPath | bot/tacocat/cogs/developer/logs_cmd.py:142-164 | PROJECT and DISCORD map to paths named bot.log and discord.log; any other value is InvariantError |
| LogsCmd.ChooseResponse | bot/tacocat/cogs/developer/logs_cmd.py:215-232 | upload the file under its base name exactly when the length + 10 > 2000. Otherwise "Nothing to send!" exactly for empty or whitespace content, and else the fenced content, at most 2000 characters. The answer is always ephemeral as asked |
| LogsCmd.SendLogContent | bot/tacocat/cogs/developer/logs_cmd.py:167-232 | InvariantError exactly for an unknown log, a constraint without a level, or an unknown constraint. An upload is the whole file at the log's path; the text answer is chosen from the file or from its filtered lines |
| LogsCmd.UploadIsWholeFile | bot/tacocat/cogs/developer/logs_cmd.py:217-223 | an upload is always one of the two log files, under its own name, even when it was the filtered text that was too long |
| DeveloperCog.Defaults | bot/commands/developer/cog.py:45-62 | no level means no filter. A level alone means EXACTLY at that level. Otherwise both values are forwarded |
| DeveloperCog.ViewLogs | bot/commands/developer/cog.py:38-69 | the answer is ephemeral exactly when `show` is not set; the only error is InvariantError |
| DeveloperCog.ViewLogsTotalOnChoices | bot/commands/developer/cog.py:35-69 | every combination of offered choices is answered, so the InvariantError paths of the backend cannot be reached |
| DeveloperCog.FilterWithoutLevelIgnored | bot/commands/developer/cog.py:47-51 | a filter without a level is the same as no filter |
| DeveloperCog.LevelAloneIsExactly | bot/commands/developer/cog.py:53-57 | a level without a filter is the same as "Exactly" that level |
| DeveloperCog.NoLevelShowsWholeLog | bot/commands/developer/cog.py:49-51 | without a level the answer is chosen from the whole log file |
| DeveloperCog.LogsCommand | bot/commands/developer/cog.py:25-84 | a caller who fails the superuser check gets only the "Only select superusers…" denial; a caller who passes gets the backend's response, or its error |
| DeveloperCog.SuperuserAnswered | bot/commands/developer/cog.py:25-84 | every superuser who picks from the offered choices is answered with the backend's response |
| DeveloperCog.DeveloperAlwaysAnswered | bot/utils.py:120-125 | the developer always gets the backend's response to /logs, whoever else is a superuser |
| LegacyLogs.LegacySendLogContent | bot/tacocat/cogs/developer/logs.py:27-54 | the file is uploaded under its base name exactly when length + 10 > 2000, and otherwise the content is sent fenced, within 2000 characters. The answer is never ephemeral |
| LegacyLogs.LegacyAgreesOnNonBlank | bot/tacocat/cogs/developer/logs.py:45-54 | except on blank content, the older backend answers as the newer one does |
| LegacyLogs.LegacyBlankDiffers | bot/tacocat/cogs/developer/logs.py:54 | empty content is sent as an empty fence "``````", where the newer backend says "Nothing to send!" |
| LegacyLogs.LegacyLogChoices | bot/tacocat/cogs/developer/logs.py:17-20 | the two offered logs, the program log and the discord.py log; LegacyUploadNames states their file names |
| LegacyLogs.LegacyUploadNames | bot/tacocat/cogs/developer/logs.py:17-20 | the two choices are the program log and the discord.py log, uploaded as bot.log and discord.log |

## Findings

| source | as written | input that shows it | evidently intended | confidence | as-written member | corrected member |
|---|---|---|---|---|---|---|
| bot/tacocat/cogs/developer/logs_cmd.py:112-116 | with no selected name, the join of the names is empty and the group is `(?:)`, an empty alternative, so `\[ *\]` matches any bracket pair holding only spaces | /logs with filter "Below" and level DEBUG, on a log holding the line "queue: []" | a filter that selects no level keeps no line, so the answer is "Nothing to send!" | medium, not executed | LogsCmd.EmptySelectionKeepsBrackets | LogsCmd.IntendedFilterSound |

`LogsCmd.FilterContent` is the filter as written. `LogsCmd.IntendedFilterContent`
is the corrected one; it differs only when no level is selected
(`LogsCmd.IntendedAgreesWhenSelected`). `LogsCmd.SendLogContent` and the
filter lemmas use the corrected filter.

## Left out

- I/O is an input or a recorded reply throughout. This covers sending messages, adding reactions, reading log files (`read`), opening `discord.File` and the asynchronous `run_in_executor`, `typing()` and `defer(thinking=True)` (cog.py:324-325, 347).
- Logging calls (`log.debug` and so on) are left out; they do not affect results.
- The FFmpeg audio source built in the `Track` constructor, and the `after` callback of `vc.play`, are left out; the model plays a `Track` value.
- Discord.Next: the device state at each command is taken as given. Playback that ends on its own, for instance when the FFmpeg source runs out, is not modelled, so a device leaves `Playing` only through a stop.
- The platform clients (youtube-dl, tekore, sclib) and the tekore token request are an oracle, `Remote`. Library exceptions other than the bot's own (IndexError, tekore errors) are modelled only where the code lets them escape, as `Unhandled`.
- KeyError on a missing field is not modelled: the records (`VideoInfo`, `SpotifyTrack`, `InfoDict`) always hold every field, so the lookups `data["title"]`, `data["url"]`, `data["entries"][0]` and `external_urls["spotify"]` (tracks.py:94, 142, 147, 295-298) never fail in the model.
- Discord's gateway voice state is not modelled. `channel.connect`, and `change_voice_state` after its ClientException, take effect at once (`Discord.Guild.Connect`).
- `Track.from_query`'s `case _` and the other enum fallbacks are not modelled as branches: the enum types rule them out.
- Tracks.IsSoundCloudUrl: `\w` is taken as ASCII letters, digits and `_`; Python's Unicode word characters are not modelled.
- Text.Repr: only backslash, the quote, `\n`, `\r` and `\t` are escaped; other non-printable characters are not.
- Utils.RenderTimestamp: takes the already rounded Unix time as an integer; the float `timestamp()` and `round()` are not modelled.
- LogsCmd.LOG_ALERT_LEVEL: logs_cmd.py imports it from `bot/tacocat/config.py`, which does not define it. The value 45 is that of `bot/config.py:122` and of the level name registered in `bot/tacocat/logger.py:31`.
- DeveloperCog.ViewLogs: `bot/commands/developer/cog.py:15` imports its backend from `.logs_cmd`, which is `bot/commands/developer/logs_cmd.py`. That file is not part of this model. The backend modelled in its place is `bot/tacocat/cogs/developer/logs_cmd.py`.
- Utils.MESSAGE_LENGTH_LIMIT: `logs_cmd.py:20` and `logs.py:15` import it from `bot/tacocat/utils.py`, which defines only `BotMode`. The value 2000 is the one in `bot/utils.py:16`.
- LogsCmd.ProgramLogPath: the absolute paths built at import time are `root + "/logs/bot.log"` and `root + "/logs/discord.log"`, with the root directory as a parameter.
- LogsCmd.SendLogContent: filters with the corrected pattern semantics (see Findings), not the code as written.
- MusicCog.JoinChannel: assumes the channel to join belongs to the command's guild, as `channel.guild.change_voice_state` does.
- The ErrorEmbed's title and colour, and the embeds' colours, are left out; only the kind (information or failure) and the text are modelled.
- `bot/client.py`, configuration, logger setup, `playlists.py` and the basic cogs are not part of this model.
