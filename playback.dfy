/**
 * The per-guild playback queue of play.js as a pure state machine over the
 * guild-id-to-queue map. These functions are the specification that the
 * imperative registry (module PlayCommand) is proved to follow; the
 * properties of play.js are proved about them in module PlaybackProperties.
 */
module Playback {
  import opened Wrappers
  import opened Songs

  type GuildId = string
  type ChannelId = string

  /** A voice connection, joined to one channel. */
  datatype Connection = Connection(channel: ChannelId)

  /**
   * What the model tracks of the guild's audio player: the track it was last
   * told to play and how many Idle listeners have been registered on it.
   */
  datatype Player = Player(current: Option<Song>, idleListeners: nat)

  /** The queue record (play.js:77-85). */
  datatype Entry = Entry(
    voiceChannel: ChannelId,
    textChannel: ChannelId,
    connection: Option<Connection>,
    player: Option<Player>,
    songs: seq<Song>,
    volume: int,
    playing: bool)

  /** The module-level `queue` map (play.js:7). */
  type State = map<GuildId, Entry>

  /** The short chat replies of execute. */
  datatype Reply = MissingArgument | NotInVoice | NoPermission | NotFound | SearchError | ConnectError

  /** What the outside world sees of a step, in order. */
  datatype Event =
    | Replied(reply: Reply)                    // message.reply(...)
    | AddedToQueue(song: Song, position: nat)  // the "added to queue" embed
    | NowPlaying(song: Song)                   // the "now playing" embed
    | PlaybackFailed                           // the playback error text
    | Joined(channel: ChannelId)               // joinVoiceChannel succeeded
    | Destroyed(channel: ChannelId)            // connection.destroy()
    | Unhandled                                // an exception escapes execute

  datatype Step = Step(state: State, events: seq<Event>)

  /** How setting up the voice session goes: joinVoiceChannel throws, or createAudioPlayer/subscribe throws. */
  datatype VoiceSetup = Connected | JoinThrows | PlayerThrows

  /** A `play` command as execute sees it. */
  datatype Request = Request(
    guild: GuildId,
    args: seq<string>,
    voiceChannel: Option<ChannelId>,
    canConnect: bool,
    canSpeak: bool,
    textChannel: ChannelId,
    author: string)

  const InitialVolume := 5

  /** Connection and player are both set. */
  predicate Ready(e: Entry) {
    e.connection.Some? && e.player.Some?
  }

  /** The state between events: the head of the list is what the player plays. */
  predicate Active(e: Entry) {
    && Ready(e)
    && e.songs != []
    && e.player.value.current == Some(e.songs[0])
    && e.player.value.idleListeners >= 1
  }

  predicate WellFormed(s: State) {
    forall g :: g in s ==> Active(s[g])
  }

  /** Array.prototype.shift: drop the head; an empty list stays empty. */
  function Shift(songs: seq<Song>): (r: seq<Song>)
    ensures songs != [] ==> [songs[0]] + r == songs
    ensures songs == [] ==> r == []
  {
    if songs == [] then [] else songs[1..]
  }

  /** The index of the first song whose stream can be acquired, or |songs| if there is none. */
  function FirstPlayable(songs: seq<Song>, streamOk: string -> bool): (k: nat)
    ensures k <= |songs|
    ensures forall i :: 0 <= i < k ==> !streamOk(songs[i].url)
    ensures k < |songs| ==> streamOk(songs[k].url)
    decreases |songs|
  {
    if songs == [] || streamOk(songs[0].url) then 0
    else 1 + FirstPlayable(songs[1..], streamOk)
  }

  /**
   * playSong (play.js:139-190), called as every caller calls it, with the
   * head of the guild's list. With no head the connection is destroyed and
   * the entry removed. Otherwise the head is started and one more Idle
   * listener registered; if its stream cannot be acquired the head is
   * shifted off and playSong runs again, on a list one shorter.
   */
  function PlaySongSpec(s: State, g: GuildId, streamOk: string -> bool): (r: Step)
    requires g in s && Ready(s[g])
    ensures r.state - {g} == s - {g}
    ensures |r.events| <= |s[g].songs| + 1
    decreases |s[g].songs|
  {
    var e := s[g];
    if e.songs == [] then
      Step(s - {g}, [Destroyed(e.connection.value.channel)])
    else if streamOk(e.songs[0].url) then
      var listeners := e.player.value.idleListeners;
      Step(s[g := e.(player := Some(Player(Some(e.songs[0]), listeners + 1)))], [NowPlaying(e.songs[0])])
    else
      var next := PlaySongSpec(s[g := e.(songs := e.songs[1..])], g, streamOk);
      Step(next.state, [PlaybackFailed] + next.events)
  }

  /** One Idle listener firing (play.js:163-166): shift the list, then playSong with the new head. */
  function FinishedSpec(s: State, g: GuildId, streamOk: string -> bool): Step
    requires g in s && Ready(s[g])
  {
    PlaySongSpec(s[g := s[g].(songs := Shift(s[g].songs))], g, streamOk)
  }

  /**
   * The first request for a guild (play.js:76-115): the record is put in the
   * map before connecting, with the song as its only entry; if connecting or
   * creating the player throws, the entry is deleted again.
   */
  function CreateSpec(s: State, g: GuildId, voiceChannel: ChannelId, textChannel: ChannelId,
                      song: Song, setup: VoiceSetup, streamOk: string -> bool): Step
    requires g !in s
  {
    var entry := Entry(voiceChannel, textChannel, None, None, [song], InitialVolume, true);
    var joined := entry.(connection := Some(Connection(voiceChannel)));
    match setup
    case JoinThrows => Step(s[g := entry] - {g}, [Replied(ConnectError)])
    case PlayerThrows => Step(s[g := joined] - {g}, [Joined(voiceChannel), Replied(ConnectError)])
    case Connected =>
      var started := PlaySongSpec(s[g := joined.(player := Some(Player(None, 0)))], g, streamOk);
      Step(started.state, [Joined(voiceChannel)] + started.events)
  }

  /** A request for a guild that already has a queue (play.js:116-133): push and report the position. */
  function AppendSpec(s: State, g: GuildId, song: Song): Step
    requires g in s
  {
    var songs := s[g].songs + [song];
    Step(s[g := s[g].(songs := songs)], [AddedToQueue(song, |songs| - 1)])
  }

  /** execute (play.js:16-135). */
  function ExecuteSpec(s: State, req: Request, r: Resolver, setup: VoiceSetup, streamOk: string -> bool): Step {
    if |req.args| == 0 then Step(s, [Replied(MissingArgument)])
    else if req.voiceChannel.None? then Step(s, [Replied(NotInVoice)])
    else if !req.canConnect || !req.canSpeak then Step(s, [Replied(NoPermission)])
    else
      match Resolve(JoinArgs(req.args), req.author, r)
      case LookupThrew => Step(s, [Unhandled])
      case NoMatch => Step(s, [Replied(NotFound)])
      case SearchThrew => Step(s, [Replied(SearchError)])
      case Found(song) =>
        if req.guild !in s then
          CreateSpec(s, req.guild, req.voiceChannel.value, req.textChannel, song, setup, streamOk)
        else
          AppendSpec(s, req.guild, song)
  }
}
