/** The parts of discord.py the core talks to, reduced to what it
    reads and what it changes: members and voice channels as values,
    the voice client as an abstract playback device, the guild that
    holds it, and the invocation context that collects the replies. */
module Discord {
  import opened Wrappers
  import opened Exceptions
  import opened Text
  import Tracks

  datatype Member = Member(id: nat, bot: bool)

  /** A voice channel with the members connected to it. Channels compare
      by id, as discord.py's do. */
  datatype VoiceChannel = VoiceChannel(id: nat, members: seq<Member>)

  /** `Member.mention` and `VoiceChannel.mention`. */
  function UserMention(id: nat): string {
    "<@" + NatToString(id) + ">"
  }

  function ChannelMention(id: nat): string {
    "<#" + NatToString(id) + ">"
  }

  /** An app-command choice: the name shown and the value passed. */
  datatype Choice<T> = Choice(name: string, value: T)

  // ---------------------------------------------------------------- replies

  /** `MusicEmbed` (information) or `MusicErrorEmbed` (failure). */
  datatype EmbedKind = MusicInfo | MusicFailure

  datatype Embed = Embed(
    kind: EmbedKind,
    description: string,
    title: Option<string>,
    url: Option<string>,
    footer: Option<string>)

  function MusicEmbed(description: string): Embed {
    Embed(MusicInfo, description, None, None, None)
  }

  function MusicErrorEmbed(description: string): Embed {
    Embed(MusicFailure, description, None, None, None)
  }

  /** A response to a command: `ctx.send(content=…, embed=…)` or an emoji
      reaction on the invoking message. */
  datatype Reply = Sent(content: Option<string>, embed: Option<Embed>) | Reacted(emoji: string)

  // ---------------------------------------------------------------- the device

  datatype DeviceState = Stopped | Playing(track: Tracks.Track) | Paused(track: Tracks.Track)

  datatype DeviceCall = PlayCall(track: Tracks.Track) | PauseCall | ResumeCall | StopCall

  /** How a call changes the device: pausing only affects a playing
      track, resuming only a paused one, stopping always ends playback. */
  function Next(s: DeviceState, call: DeviceCall): DeviceState {
    match call
    case PlayCall(t) => Playing(t)
    case PauseCall => if s.Playing? then Paused(s.track) else s
    case ResumeCall => if s.Paused? then Playing(s.track) else s
    case StopCall => Stopped
  }

  /** Pausing and resuming are idempotent, as the docstrings of /pause
      and /resume rely on. */
  lemma PauseResumeIdempotent(s: DeviceState)
    ensures Next(Next(s, PauseCall), PauseCall) == Next(s, PauseCall)
    ensures Next(Next(s, ResumeCall), ResumeCall) == Next(s, ResumeCall)
  {
  }

  /** Why `VoiceClient.play` refuses a source: the client must be
      connected and must not be playing already (a paused track may be
      replaced). */
  function PlayRefusal(connected: bool, s: DeviceState): (r: Option<Error>)
    ensures r.None? <==> connected && !s.Playing?
    ensures r.Some? ==> r.value == Unhandled("ClientException")
  {
    if !connected || s.Playing? then Some(Unhandled("ClientException")) else None
  }

  /** A guild's voice client: its connection and the device behind it,
      with the calls made on it in order. */
  class VoiceClient {
    var connected: bool
    var channel: VoiceChannel
    var state: DeviceState
    var calls: seq<DeviceCall>

    constructor (channel: VoiceChannel)
      ensures this.channel == channel && connected && state == Stopped && calls == []
    {
      this.channel := channel;
      connected := true;
      state := Stopped;
      calls := [];
    }

    /** `pause()`, `resume()` and `stop()`: never refused. */
    method Call(call: DeviceCall)
      requires !call.PlayCall?
      modifies this
      ensures state == Next(old(state), call) && calls == old(calls) + [call]
      ensures connected == old(connected) && channel == old(channel)
    {
      state := Next(state, call);
      calls := calls + [call];
    }

    /** `play(source)`: raises `ClientException` when not connected or
      already playing, and otherwise starts the track. */
    method Play(t: Tracks.Track) returns (err: Option<Error>)
      modifies this
      ensures err == PlayRefusal(old(connected), old(state))
      ensures err.None? ==> state == Playing(t) && calls == old(calls) + [PlayCall(t)]
      ensures err.Some? ==> unchanged(this)
      ensures connected == old(connected) && channel == old(channel)
    {
      err := PlayRefusal(connected, state);
      if err.None? {
        state := Next(state, PlayCall(t));
        calls := calls + [PlayCall(t)];
      }
    }

    /** `Guild.change_voice_state(channel=…)`: the connection moves to
      another channel and the device keeps its state. */
    method MoveTo(ch: VoiceChannel)
      modifies this
      ensures channel == ch && connected
      ensures state == old(state) && calls == old(calls)
    {
      channel := ch;
      connected := true;
    }
  }

  /** A snapshot of a voice client: connection, channel and device. */
  datatype VoiceStatus = VoiceStatus(connected: bool, channel: VoiceChannel, state: DeviceState)

  /** A guild; `voiceClient` is `Guild.voice_client`. */
  class Guild {
    const id: nat
    var voiceClient: VoiceClient?

    constructor (id: nat, voiceClient: VoiceClient?)
      ensures this.id == id && this.voiceClient == voiceClient
    {
      this.id := id;
      this.voiceClient := voiceClient;
    }

    /** `channel.connect()` for a channel of this guild: a new voice client
        when there is none, and otherwise (the `ClientException` the
        connect raises) a move of the existing one. */
    method Connect(ch: VoiceChannel)
      modifies this, voiceClient
      ensures voiceClient != null && voiceClient.channel == ch && voiceClient.connected
      ensures old(voiceClient) == null ==>
        fresh(voiceClient) && voiceClient.state == Stopped && voiceClient.calls == []
      ensures old(voiceClient) != null ==>
        voiceClient == old(voiceClient)
        && voiceClient.state == old(voiceClient.state) && voiceClient.calls == old(voiceClient.calls)
    {
      if voiceClient == null {
        voiceClient := new VoiceClient(ch);
      } else {
        voiceClient.MoveTo(ch);
      }
    }
  }

  /** The context of an invoked hybrid command. `guild` is null in a DM;
      `interaction` tells a slash invocation from a text one; `replies`
      collects what the bot sent or reacted, in order. */
  class Context {
    const guild: Guild?
    const author: Member
    const authorVoice: Option<VoiceChannel>
    const interaction: bool
    var replies: seq<Reply>

    constructor (guild: Guild?, author: Member, authorVoice: Option<VoiceChannel>, interaction: bool)
      ensures this.guild == guild && this.author == author && this.authorVoice == authorVoice
      ensures this.interaction == interaction && replies == []
    {
      this.guild := guild;
      this.author := author;
      this.authorVoice := authorVoice;
      this.interaction := interaction;
      replies := [];
    }

    /** `ctx.voice_client`: the guild's voice client, none in a DM. */
    function VoiceClientOf(): (vc: VoiceClient?)
      reads this, guild
      ensures guild == null ==> vc == null
      ensures guild != null ==> vc == guild.voiceClient
    {
      if guild == null then null else guild.voiceClient
    }

    /** What the guild's voice client looks like, none when there is
        no voice client. */
    function Status(): (r: Option<VoiceStatus>)
      reads this, guild, VoiceClientOf()
      ensures r.None? <==> VoiceClientOf() == null
    {
      var vc := VoiceClientOf();
      if vc == null then None else Some(VoiceStatus(vc.connected, vc.channel, vc.state))
    }

    method Respond(reply: Reply)
      modifies this
      ensures replies == old(replies) + [reply]
    {
      replies := replies + [reply];
    }
  }
}
