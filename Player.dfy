/** bot/commands/music/player.py: finding the track for a request,
    the "Now playing" embed, and the guild-specific player that starts
    playback on the guild's voice client. */
module Player {
  import opened Wrappers
  import opened Exceptions
  import opened Text
  import opened Tracks
  import opened Discord

  /** What `_get_track` ends with: a playable track, or the failure embed
      it already sent to the caller. */
  datatype Lookup = Found(track: Track) | Reported(embed: Embed)

  function NotFoundMessage(query: string): string {
    "Could not find a track with your query " + Repr(query) + "."
  }

  function LookupErrorMessage(query: string): string {
    "An error occurred while trying to find a track with your query " + Repr(query)
    + ". If you're searching for a SoundCloud resource, please use the URL."
  }

  /** `_get_track`: `NotFoundError` and `ValueError` become a failure
      embed for the caller; every other error propagates. */
  function GetTrack(remote: Remote, query: string, platform: Platform): (r: Result<Lookup, Error>)
    ensures r.Ok? && r.value.Found? <==> FromQuery(remote, query, platform).Ok?
    ensures r.Ok? && r.value.Found? ==> r.value.track == FromQuery(remote, query, platform).value
    ensures r.Ok? && r.value.Reported? ==> r.value.embed.kind == MusicFailure
    ensures r.Err? <==>
      FromQuery(remote, query, platform).Err? && FromQuery(remote, query, platform).error !in {NotFoundError, ValueError}
    ensures r.Err? ==> r.error == FromQuery(remote, query, platform).error
  {
    match FromQuery(remote, query, platform)
    case Ok(t) => Ok(Found(t))
    case Err(NotFoundError) => Ok(Reported(MusicErrorEmbed(NotFoundMessage(query))))
    case Err(ValueError) => Ok(Reported(MusicErrorEmbed(LookupErrorMessage(query))))
    case Err(e) => Err(e)
  }

  /** A search (not a URL) on SoundCloud is always answered with the
      advice to use a URL, whatever the platform clients would say. */
  lemma SoundCloudSearchAdvised(remote: Remote, query: string)
    requires InferFromUrl(query).None?
    ensures GetTrack(remote, query, SOUNDCLOUD) == Ok(Reported(MusicErrorEmbed(LookupErrorMessage(query))))
  {
    SoundCloudSearchRejected(remote, remote, query);
  }

  /** A track that is found was resolved on the platform the request
      names: the recognised URL's, or else the hint. */
  lemma FoundOnResolvedPlatform(remote: Remote, query: string, platform: Platform)
    requires GetTrack(remote, query, platform).Ok? && GetTrack(remote, query, platform).value.Found?
    ensures GetTrack(remote, query, platform).value.track.platform == ResolvedPlatform(query, platform)
  {
  }

  /** `_make_np_embed`. */
  function NowPlayingEmbed(t: Track): (e: Embed)
    ensures e.kind == MusicInfo && e.description == t.title
    ensures e.title == Some("Now playing from " + Value(t.platform)) && e.url == Some(t.url)
    ensures e.footer.Some? && StartsWith(e.footer.value, t.artist)
  {
    var footer := match t.collab case None => t.artist case Some(c) => t.artist + ", " + c;
    Embed(MusicInfo, t.title, Some("Now playing from " + Value(t.platform)), Some(t.url), Some(footer))
  }

  /** The footer names the collaborator exactly when the track has one. */
  lemma NowPlayingFooter(t: Track)
    ensures NowPlayingEmbed(t).footer == Some(t.artist) <==> t.collab.None?
    ensures t.collab.Some? ==> NowPlayingEmbed(t).footer == Some(t.artist + ", " + t.collab.value)
  {
    if t.collab.Some? {
      assert |t.artist + ", " + t.collab.value| > |t.artist|;
    }
  }

  /** The guild-specific music player. */
  class Player {
    const guild: Guild

    constructor (guild: Guild)
      ensures this.guild == guild
    {
      this.guild := guild;
    }

    /** The `vc` property: the guild's voice client, or `InvariantError`
        when it has not been created. */
    function Vc(): (r: Result<VoiceClient, Error>)
      reads guild
      ensures r.Err? <==> guild.voiceClient == null
      ensures r.Err? ==> r.error == InvariantError
      ensures r.Ok? ==> r.value == guild.voiceClient
    {
      if guild.voiceClient == null then Err(InvariantError) else Ok(guild.voiceClient)
    }

    /** `play_track`: find the track, start it on the voice client and
        announce it. Failures that `_get_track` reports end the command
        with that report; a missing voice client and a refused `play`
        end it with the error raised and no reply. */
    method PlayTrack(ctx: Context, remote: Remote, query: string, platform: Platform)
      returns (failure: Option<Error>)
      modifies ctx, guild.voiceClient
      ensures guild.voiceClient == old(guild.voiceClient)
      ensures guild.voiceClient != null ==>
        guild.voiceClient.connected == old(guild.voiceClient.connected)
        && guild.voiceClient.channel == old(guild.voiceClient.channel)
      ensures var lookup := GetTrack(remote, query, platform);
        && (lookup.Err? ==>
              failure == Some(lookup.error) && ctx.replies == old(ctx.replies)
              && (guild.voiceClient != null ==> unchanged(guild.voiceClient)))
        && (lookup.Ok? && lookup.value.Reported? ==>
              failure == None && ctx.replies == old(ctx.replies) + [Sent(None, Some(lookup.value.embed))]
              && (guild.voiceClient != null ==> unchanged(guild.voiceClient)))
        && (lookup.Ok? && lookup.value.Found? && guild.voiceClient == null ==>
              failure == Some(InvariantError) && ctx.replies == old(ctx.replies))
        && (lookup.Ok? && lookup.value.Found? && guild.voiceClient != null ==>
              var vc := guild.voiceClient;
              var refusal := PlayRefusal(old(vc.connected), old(vc.state));
              && failure == refusal
              && (refusal.None? ==>
                    vc.state == Playing(lookup.value.track)
                    && vc.calls == old(vc.calls) + [PlayCall(lookup.value.track)]
                    && ctx.replies == old(ctx.replies) + [Sent(None, Some(NowPlayingEmbed(lookup.value.track)))])
              && (refusal.Some? ==> unchanged(vc) && ctx.replies == old(ctx.replies)))
    {
      var lookup := GetTrack(remote, query, platform);
      match lookup {
        case Err(e) =>
          failure := Some(e);
        case Ok(Reported(embed)) =>
          ctx.Respond(Sent(None, Some(embed)));
          failure := None;
        case Ok(Found(t)) =>
          var vc := Vc();
          if vc.Err? {
            failure := Some(vc.error);
          } else {
            failure := vc.value.Play(t);
            if failure.None? {
              ctx.Respond(Sent(None, Some(NowPlayingEmbed(t))));
            }
          }
      }
    }
  }
}
