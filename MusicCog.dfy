/** bot/commands/music/cog.py: the frontend of the music commands.
    Each command checks the caller's state, drives the guild's voice
    client or player, and answers the caller exactly once. */
module MusicCog {
  import opened Wrappers
  import opened Exceptions
  import opened Tracks
  import opened Discord
  import Utils
  import opened Player

  const DEFAULT_REACTION: string := "\U{2705}"
  const JOIN_REACTION: string := "\U{1F44C}"
  const IDLE_REACTION: string := "\U{2753}"
  const PAUSE_REACTION: string := "\U{23F8}\U{FE0F}"
  const RESUME_REACTION: string := "\U{25B6}\U{FE0F}"
  const SKIP_REACTION: string := "\U{23ED}\U{FE0F}"

  const NOT_PLAYING: string := "Player is not playing anything."

  /** `_react_either`: a slash command is answered with a message (which
      needs content or an embed), a text command with a reaction. */
  function ReactEither(interaction: bool, reaction: string, content: Option<string>, embed: Option<Embed>)
    : (r: Result<Reply, Error>)
    ensures r.Err? <==> interaction && content.None? && embed.None?
    ensures r.Err? ==> r.error == InvariantError
    ensures r.Ok? && r.value.Reacted? <==> !interaction
    ensures r.Ok? && r.value.Reacted? ==> r.value.emoji == reaction
    ensures r.Ok? && r.value.Sent? ==> r.value.content == content && r.value.embed == embed
  {
    if interaction then
      if content.None? && embed.None? then Err(InvariantError) else Ok(Sent(content, embed))
    else Ok(Reacted(reaction))
  }

  /** Every command hands `_react_either` an embed, so it always answers. */
  lemma ReactWithEmbedAnswers(interaction: bool, reaction: string, embed: Embed)
    ensures ReactEither(interaction, reaction, None, Some(embed)).Ok?
  {
  }

  // ---------------------------------------------------------------- joining

  function NoChannelMessage(author: Member): string {
    UserMention(author.id) + ", connect to a voice channel first or choose a channel for the /join command."
  }

  function InUseMessage(author: Member, busy: VoiceChannel): string {
    UserMention(author.id) + ", someone else is listening to music in " + ChannelMention(busy.id) + "."
  }

  /** The outcome of the checks of `_join_channel`. */
  datatype JoinDecision = Refuse(embed: Embed) | ConnectTo(channel: VoiceChannel)

  /** The channel the bot is asked to join: the one requested, or else
      the caller's. */
  function Target(requested: Option<VoiceChannel>, authorVoice: Option<VoiceChannel>): Option<VoiceChannel> {
    if requested.Some? then requested else authorVoice
  }

  /** The bot is in use elsewhere: connected, with a human listening, in
      a channel other than the target. */
  predicate InUseElsewhere(bot: Option<VoiceStatus>, target: VoiceChannel) {
    bot.Some? && bot.value.connected && Utils.HasHumans(bot.value.channel.members)
    && target.id != bot.value.channel.id
  }

  /** The checks of `_join_channel`, in order: a channel to join must be
      known, and the bot must not be in use by someone elsewhere. */
  function DecideJoin(author: Member, requested: Option<VoiceChannel>, authorVoice: Option<VoiceChannel>,
                      bot: Option<VoiceStatus>): (r: JoinDecision)
    ensures r.Refuse? ==> r.embed.kind == MusicFailure
    ensures r.ConnectTo? ==> Target(requested, authorVoice) == Some(r.channel)
    ensures Target(requested, authorVoice).None? ==> r == Refuse(MusicErrorEmbed(NoChannelMessage(author)))
  {
    match Target(requested, authorVoice)
    case None => Refuse(MusicErrorEmbed(NoChannelMessage(author)))
    case Some(channel) =>
      if InUseElsewhere(bot, channel) then Refuse(MusicErrorEmbed(InUseMessage(author, bot.value.channel)))
      else ConnectTo(channel)
  }

  /** The join is refused exactly when there is no channel to join or the
      bot is in use elsewhere. */
  lemma JoinRefusedIff(author: Member, requested: Option<VoiceChannel>, authorVoice: Option<VoiceChannel>,
                       bot: Option<VoiceStatus>)
    ensures DecideJoin(author, requested, authorVoice, bot).Refuse? <==>
      var target := Target(requested, authorVoice);
      target.None? || InUseElsewhere(bot, target.value)
  {
  }

  /** A bot whose channel holds only bots (or nobody) can always be moved. */
  lemma OnlyBotsDoNotBlock(author: Member, requested: Option<VoiceChannel>, authorVoice: Option<VoiceChannel>,
                           bot: VoiceStatus)
    requires Target(requested, authorVoice).Some?
    requires forall i :: 0 <= i < |bot.channel.members| ==> bot.channel.members[i].bot
    ensures DecideJoin(author, requested, authorVoice, Some(bot)) == ConnectTo(Target(requested, authorVoice).value)
  {
    Utils.HasHumansIff(bot.channel.members);
  }

  /** Asking the bot into the channel it is already in always succeeds. */
  lemma RejoinSameChannel(author: Member, requested: VoiceChannel, authorVoice: Option<VoiceChannel>, bot: VoiceStatus)
    requires requested.id == bot.channel.id
    ensures DecideJoin(author, Some(requested), authorVoice, Some(bot)) == ConnectTo(requested)
  {
  }

  /** Refusing someone because of a listener names the listener's channel. */
  lemma InUseNamesBusyChannel(author: Member, target: VoiceChannel, bot: VoiceStatus)
    requires InUseElsewhere(Some(bot), target)
    ensures DecideJoin(author, Some(target), None, Some(bot)) == Refuse(MusicErrorEmbed(InUseMessage(author, bot.channel)))
  {
  }

  /** `_join_channel`: run the checks; on success connect to the target
      (or move there) and return it, on failure answer the caller. */
  method JoinChannel(ctx: Context, requested: Option<VoiceChannel>) returns (joined: Option<VoiceChannel>)
    requires ctx.guild != null
    modifies ctx, ctx.guild, ctx.guild.voiceClient
    ensures var d := DecideJoin(ctx.author, requested, ctx.authorVoice, old(ctx.Status()));
      && (d.Refuse? ==>
            joined.None? && ctx.replies == old(ctx.replies) + [Sent(None, Some(d.embed))]
            && ctx.guild.voiceClient == old(ctx.guild.voiceClient)
            && (ctx.guild.voiceClient != null ==> unchanged(ctx.guild.voiceClient)))
      && (d.ConnectTo? ==>
            && joined == Some(d.channel) && ctx.replies == old(ctx.replies)
            && ctx.guild.voiceClient != null
            && ctx.guild.voiceClient.connected && ctx.guild.voiceClient.channel == d.channel
            && (old(ctx.guild.voiceClient) == null ==>
                  fresh(ctx.guild.voiceClient) && ctx.guild.voiceClient.state == Stopped
                  && ctx.guild.voiceClient.calls == [])
            && (old(ctx.guild.voiceClient) != null ==>
                  ctx.guild.voiceClient == old(ctx.guild.voiceClient)
                  && ctx.guild.voiceClient.state == old(ctx.guild.voiceClient.state)
                  && ctx.guild.voiceClient.calls == old(ctx.guild.voiceClient.calls)))
  {
    var d := DecideJoin(ctx.author, requested, ctx.authorVoice, ctx.Status());
    match d {
      case Refuse(embed) =>
        ctx.Respond(Sent(None, Some(embed)));
        joined := None;
      case ConnectTo(channel) =>
        ctx.guild.Connect(channel);
        joined := Some(channel);
    }
  }

  // ---------------------------------------------------------------- /play

  /** The `match` of `play` on the platform choice. */
  function PlatformFromChoice(choice: string): (r: Result<Platform, Error>)
    ensures r.Ok? ==> Value(r.value) == choice
    ensures r.Err? ==> r.error == InvariantError
  {
    if choice == "YouTube" then Ok(YOUTUBE)
    else if choice == "Spotify" then Ok(SPOTIFY)
    else if choice == "SoundCloud" then Ok(SOUNDCLOUD)
    else Err(InvariantError)
  }

  /** Every platform's display name is accepted, and chooses that platform. */
  lemma PlatformChoiceRoundTrip(p: Platform)
    ensures PlatformFromChoice(Value(p)) == Ok(p)
  {
  }

  /** The voice client a track is started on may refuse only because a
      track is already playing there: after a successful join it is
      connected, and a new client is stopped. */
  predicate AlreadyPlaying(before: Option<VoiceStatus>) {
    before.Some? && before.value.state.Playing?
  }

  // ---------------------------------------------------------------- the cog

  class MusicCog {
    /** `_players`: the guild-specific players, created on demand. */
    var players: map<Guild, Player>

    /** Every player is registered under its own guild. */
    predicate Valid()
      reads this
    {
      forall g :: g in players ==> players[g].guild == g
    }

    constructor ()
      ensures players == map[] && Valid()
    {
      players := map[];
    }

    /** `get_player`: the guild's player, created and registered the
        first time it is asked for. */
    method GetPlayer(ctx: Context) returns (r: Result<Player, Error>)
      requires Valid()
      modifies this
      ensures Valid()
      ensures ctx.guild == null ==> r == Err(InvariantError) && players == old(players)
      ensures ctx.guild != null ==> r.Ok? && r.value.guild == ctx.guild && ctx.guild in players
      ensures ctx.guild != null && ctx.guild in old(players) ==>
        r.value == old(players)[ctx.guild] && players == old(players)
      ensures ctx.guild != null && ctx.guild !in old(players) ==>
        fresh(r.value) && players == old(players)[ctx.guild := r.value]
    {
      var guild := ctx.guild;
      if guild == null {
        return Err(InvariantError);
      }
      if guild in players {
        return Ok(players[guild]);
      }
      var p := new Player(guild);
      players := players[guild := p];
      r := Ok(p);
    }

    /** /join: connect to the requested channel or the caller's. */
    method Join(ctx: Context, channel: Option<VoiceChannel>) returns (failure: Option<Error>)
      modifies ctx, ctx.guild, ctx.VoiceClientOf()
      ensures ctx.guild == null ==> failure == Some(NotApplicableError) && unchanged(ctx)
      ensures ctx.guild != null ==>
        var d := DecideJoin(ctx.author, channel, ctx.authorVoice, old(ctx.Status()));
        && failure.None?
        && (d.Refuse? ==>
              ctx.replies == old(ctx.replies) + [Sent(None, Some(d.embed))]
              && ctx.guild.voiceClient == old(ctx.guild.voiceClient)
              && (ctx.guild.voiceClient != null ==> unchanged(ctx.guild.voiceClient)))
        && (d.ConnectTo? ==>
              && ctx.guild.voiceClient != null && ctx.guild.voiceClient.connected
              && ctx.guild.voiceClient.channel == d.channel
              && (old(ctx.guild.voiceClient) == null ==>
                    fresh(ctx.guild.voiceClient) && ctx.guild.voiceClient.state == Stopped
                    && ctx.guild.voiceClient.calls == [])
              && (old(ctx.guild.voiceClient) != null ==>
                    ctx.guild.voiceClient == old(ctx.guild.voiceClient)
                    && ctx.guild.voiceClient.state == old(ctx.guild.voiceClient.state)
                    && ctx.guild.voiceClient.calls == old(ctx.guild.voiceClient.calls))
              && ctx.replies == old(ctx.replies) + [
                ReactEither(ctx.interaction, JOIN_REACTION, None,
                            Some(MusicEmbed("Connected to channel " + ChannelMention(d.channel.id) + "."))).value])
    {
      // `cog_before_invoke`: music commands only run in guilds
      if ctx.guild == null {
        return Some(NotApplicableError);
      }
      var joined := JoinChannel(ctx, channel);
      if joined.Some? {
        var embed := MusicEmbed("Connected to channel " + ChannelMention(joined.value.id) + ".");
        ctx.Respond(ReactEither(ctx.interaction, JOIN_REACTION, None, Some(embed)).value);
      }
      failure := None;
    }

    /** The shared shape of /pause, /resume and /skip: without a voice
        client the caller is told nothing plays; otherwise the one call
        is made and acknowledged. */
    method Control(ctx: Context, call: DeviceCall, done: string, reaction: string) returns (failure: Option<Error>)
      requires !call.PlayCall?
      modifies ctx, ctx.VoiceClientOf()
      ensures ctx.guild == null ==> failure == Some(NotApplicableError) && unchanged(ctx)
      ensures ctx.guild != null && ctx.VoiceClientOf() == null ==>
        failure.None?
        && ctx.replies == old(ctx.replies) + [ReactEither(ctx.interaction, IDLE_REACTION, None, Some(MusicErrorEmbed(NOT_PLAYING))).value]
      ensures ctx.guild != null && ctx.VoiceClientOf() != null ==>
        var vc := ctx.VoiceClientOf();
        && failure.None?
        && vc.state == Next(old(vc.state), call) && vc.calls == old(vc.calls) + [call]
        && vc.connected == old(vc.connected) && vc.channel == old(vc.channel)
        && ctx.replies == old(ctx.replies) + [ReactEither(ctx.interaction, reaction, None, Some(MusicEmbed(done))).value]
    {
      if ctx.guild == null {
        return Some(NotApplicableError);
      }
      var vc := ctx.VoiceClientOf();
      if vc == null {
        ctx.Respond(ReactEither(ctx.interaction, IDLE_REACTION, None, Some(MusicErrorEmbed(NOT_PLAYING))).value);
      } else {
        vc.Call(call);
        ctx.Respond(ReactEither(ctx.interaction, reaction, None, Some(MusicEmbed(done))).value);
      }
      failure := None;
    }

    /** /pause. */
    method Pause(ctx: Context) returns (failure: Option<Error>)
      modifies ctx, ctx.VoiceClientOf()
      ensures ctx.guild == null ==> failure == Some(NotApplicableError) && unchanged(ctx)
      ensures ctx.guild != null && ctx.VoiceClientOf() == null ==>
        failure.None?
        && ctx.replies == old(ctx.replies) + [ReactEither(ctx.interaction, IDLE_REACTION, None, Some(MusicErrorEmbed(NOT_PLAYING))).value]
      ensures ctx.guild != null && ctx.VoiceClientOf() != null ==>
        var vc := ctx.VoiceClientOf();
        && failure.None?
        && vc.state == Next(old(vc.state), PauseCall) && vc.calls == old(vc.calls) + [PauseCall]
        && vc.connected == old(vc.connected) && vc.channel == old(vc.channel)
        && ctx.replies == old(ctx.replies) + [ReactEither(ctx.interaction, PAUSE_REACTION, None, Some(MusicEmbed("Player paused."))).value]
    {
      failure := Control(ctx, PauseCall, "Player paused.", PAUSE_REACTION);
    }

    /** /resume. */
    method Resume(ctx: Context) returns (failure: Option<Error>)
      modifies ctx, ctx.VoiceClientOf()
      ensures ctx.guild == null ==> failure == Some(NotApplicableError) && unchanged(ctx)
      ensures ctx.guild != null && ctx.VoiceClientOf() == null ==>
        failure.None?
        && ctx.replies == old(ctx.replies) + [ReactEither(ctx.interaction, IDLE_REACTION, None, Some(MusicErrorEmbed(NOT_PLAYING))).value]
      ensures ctx.guild != null && ctx.VoiceClientOf() != null ==>
        var vc := ctx.VoiceClientOf();
        && failure.None?
        && vc.state == Next(old(vc.state), ResumeCall) && vc.calls == old(vc.calls) + [ResumeCall]
        && vc.connected == old(vc.connected) && vc.channel == old(vc.channel)
        && ctx.replies == old(ctx.replies) + [ReactEither(ctx.interaction, RESUME_REACTION, None, Some(MusicEmbed("Player resumed."))).value]
    {
      failure := Control(ctx, ResumeCall, "Player resumed.", RESUME_REACTION);
    }

    /** /skip: with no queue yet, skipping stops the device. */
    method Skip(ctx: Context) returns (failure: Option<Error>)
      modifies ctx, ctx.VoiceClientOf()
      ensures ctx.guild == null ==> failure == Some(NotApplicableError) && unchanged(ctx)
      ensures ctx.guild != null && ctx.VoiceClientOf() == null ==>
        failure.None?
        && ctx.replies == old(ctx.replies) + [ReactEither(ctx.interaction, IDLE_REACTION, None, Some(MusicErrorEmbed(NOT_PLAYING))).value]
      ensures ctx.guild != null && ctx.VoiceClientOf() != null ==>
        var vc := ctx.VoiceClientOf();
        && failure.None?
        && vc.state == Stopped && vc.calls == old(vc.calls) + [StopCall]
        && vc.connected == old(vc.connected) && vc.channel == old(vc.channel)
        && ctx.replies == old(ctx.replies) + [ReactEither(ctx.interaction, SKIP_REACTION, None, Some(MusicEmbed("Track skipped."))).value]
    {
      failure := Control(ctx, StopCall, "Track skipped.", SKIP_REACTION);
    }

    /** /play: join the caller's channel as /join does, resolve the
        platform choice, and let the guild's player play the track. */
    method Play(ctx: Context, remote: Remote, query: string, platform: string := "YouTube") returns (failure: Option<Error>)
      requires Valid()
      modifies this, ctx, ctx.guild, ctx.VoiceClientOf()
      ensures Valid()
      ensures ctx.guild == null ==> failure == Some(NotApplicableError) && unchanged(ctx) && players == old(players)
      ensures ctx.guild != null ==>
        var d := DecideJoin(ctx.author, None, ctx.authorVoice, old(ctx.Status()));
        var before := old(ctx.guild.voiceClient);
        var state0 := if before == null then Stopped else old(before.state);
        var calls0 := if before == null then [] else old(before.calls);
        && (d.Refuse? ==>
              failure.None? && ctx.replies == old(ctx.replies) + [Sent(None, Some(d.embed))]
              && players == old(players)
              && ctx.guild.voiceClient == before && (before != null ==> unchanged(before)))
        && (d.ConnectTo? ==>
              ctx.guild.voiceClient != null && ctx.guild.voiceClient.connected
              && ctx.guild.voiceClient.channel == d.channel
              && (before != null ==> ctx.guild.voiceClient == before)
              && (before == null ==> fresh(ctx.guild.voiceClient)))
        && (d.ConnectTo? && PlatformFromChoice(platform).Err? ==>
              failure == Some(InvariantError) && ctx.replies == old(ctx.replies) && players == old(players)
              && ctx.guild.voiceClient.state == state0 && ctx.guild.voiceClient.calls == calls0)
        && (d.ConnectTo? && PlatformFromChoice(platform).Ok? ==>
              && ctx.guild in players && players[ctx.guild].guild == ctx.guild
              && players == old(players)[ctx.guild := players[ctx.guild]]
              && (ctx.guild in old(players) ==> players == old(players))
              && var lookup := GetTrack(remote, query, PlatformFromChoice(platform).value);
              && (lookup.Err? ==>
                    failure == Some(lookup.error) && ctx.replies == old(ctx.replies)
                    && ctx.guild.voiceClient.state == state0 && ctx.guild.voiceClient.calls == calls0)
              && (lookup.Ok? && lookup.value.Reported? ==>
                    failure.None? && ctx.replies == old(ctx.replies) + [Sent(None, Some(lookup.value.embed))]
                    && ctx.guild.voiceClient.state == state0 && ctx.guild.voiceClient.calls == calls0)
              && (lookup.Ok? && lookup.value.Found? && AlreadyPlaying(old(ctx.Status())) ==>
                    failure == Some(Unhandled("ClientException")) && ctx.replies == old(ctx.replies)
                    && ctx.guild.voiceClient.state == state0 && ctx.guild.voiceClient.calls == calls0)
              && (lookup.Ok? && lookup.value.Found? && !AlreadyPlaying(old(ctx.Status())) ==>
                    && failure.None?
                    && ctx.guild.voiceClient.state == Playing(lookup.value.track)
                    && ctx.guild.voiceClient.calls == calls0 + [PlayCall(lookup.value.track)]
                    && ctx.replies == old(ctx.replies) + [Sent(None, Some(NowPlayingEmbed(lookup.value.track)))]))
    {
      // `cog_before_invoke`: music commands only run in guilds
      if ctx.guild == null {
        return Some(NotApplicableError);
      }
      var joined := JoinChannel(ctx, None);
      if joined.None? {
        return None;
      }
      var p := PlatformFromChoice(platform);
      if p.Err? {
        return Some(p.error);
      }
      var player := GetPlayer(ctx);
      failure := player.value.PlayTrack(ctx, remote, query, p.value);
    }
  }
}
