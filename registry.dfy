/**
 * The imperative side of play.js: the queue record is an object that the map,
 * execute and the Idle listener all reach and update in place, and the
 * module-level `queue` Map is a registry object whose methods set and delete
 * its entries. Each method is proved to do what the matching function of
 * module Playback specifies.
 */
module PlayCommand {
  import opened Wrappers
  import opened Songs
  import opened Playback

  /** The queue record (play.js:77-85). */
  class GuildQueue {
    /** The guild whose map entry this record is; it keeps two guilds from sharing a record. */
    ghost const guild: GuildId
    const voiceChannel: ChannelId
    const textChannel: ChannelId
    var connection: Option<Connection>
    var player: Option<Player>
    var songs: seq<Song>
    var volume: int
    var playing: bool

    /** The record literal: no connection or player yet, no songs, volume 5, playing. */
    constructor (ghost guild: GuildId, voiceChannel: ChannelId, textChannel: ChannelId)
      ensures this.guild == guild
      ensures View() == Entry(voiceChannel, textChannel, None, None, [], InitialVolume, true)
    {
      this.guild := guild;
      this.voiceChannel := voiceChannel;
      this.textChannel := textChannel;
      connection := None;
      player := None;
      songs := [];
      volume := InitialVolume;
      playing := true;
    }

    function View(): Entry
      reads this
    {
      Entry(voiceChannel, textChannel, connection, player, songs, volume, playing)
    }
  }

  /**
   * The `queue` Map (play.js:7): guild id to the guild's queue record.
   * The ghost field `model` is its value as a map of plain records.
   */
  class QueueRegistry {
    var queues: map<GuildId, GuildQueue>
    ghost var model: State

    /** Each record belongs to its own key, so two guilds never share one; `model` is what the records hold. */
    ghost predicate Valid()
      reads this, queues.Values
    {
      && queues.Keys == model.Keys
      && (forall g :: g in queues ==> queues[g].guild == g && queues[g].View() == model[g])
    }

    constructor ()
      ensures Valid() && model == map[]
    {
      queues := map[];
      model := map[];
    }

    /** playSong (play.js:139-190) for the head of the guild's list. */
    method PlaySong(g: GuildId, streamOk: string -> bool) returns (events: seq<Event>)
      requires Valid() && g in queues && Ready(model[g])
      modifies this, queues[g]
      ensures Valid()
      ensures forall h :: h in queues && h in old(queues) ==> queues[h] == old(queues)[h]
      ensures Step(model, events) == PlaySongSpec(old(model), g, streamOk)
      decreases |model[g].songs|
    {
      var serverQueue := queues[g];
      if serverQueue.songs == [] {
        events := Teardown(g);
      } else if streamOk(serverQueue.songs[0].url) {
        events := StartHead(g, serverQueue);
      } else {
        ShiftSongs(g, serverQueue);
        var rest := PlaySong(g, streamOk);
        events := [PlaybackFailed] + rest;
      }
    }

    /** No head left (play.js:142-146): destroy the connection and delete the guild's entry. */
    method Teardown(g: GuildId) returns (events: seq<Event>)
      requires Valid() && g in queues && Ready(model[g])
      modifies this
      ensures Valid()
      ensures forall h :: h in queues && h in old(queues) ==> queues[h] == old(queues)[h]
      ensures model == old(model) - {g}
      ensures events == [Destroyed(old(model)[g].connection.value.channel)]
    {
      events := [Destroyed(queues[g].connection.value.channel)];
      queues := queues - {g};
      model := model - {g};
    }

    /** Play the head and register one more Idle listener on the player (play.js:151-166). */
    method StartHead(g: GuildId, serverQueue: GuildQueue) returns (events: seq<Event>)
      requires Valid() && g in queues && queues[g] == serverQueue && Ready(model[g]) && model[g].songs != []
      modifies this, serverQueue
      ensures Valid()
      ensures forall h :: h in queues && h in old(queues) ==> queues[h] == old(queues)[h]
      ensures g in queues && queues[g] == serverQueue
      ensures var e := old(model)[g];
        && model == old(model)[g := e.(player := Some(Player(Some(e.songs[0]), e.player.value.idleListeners + 1)))]
        && events == [NowPlaying(e.songs[0])]
    {
      var song := serverQueue.songs[0];
      serverQueue.player := Some(Player(Some(song), serverQueue.player.value.idleListeners + 1));
      model := model[g := serverQueue.View()];
      forall h | h in queues
        ensures queues[h].guild == h && queues[h].View() == model[h]
      {
        if h != g {
          assert queues[h] != serverQueue;
        }
      }
      events := [NowPlaying(song)];
    }

    /** `serverQueue.songs.shift()` on the guild's record. */
    method ShiftSongs(g: GuildId, serverQueue: GuildQueue)
      requires Valid() && g in queues && queues[g] == serverQueue
      modifies this, serverQueue
      ensures Valid() && g in queues && queues[g] == serverQueue
      ensures forall h :: h in queues && h in old(queues) ==> queues[h] == old(queues)[h]
      ensures model == old(model)[g := old(model)[g].(songs := Shift(old(model)[g].songs))]
    {
      if serverQueue.songs != [] {
        serverQueue.songs := serverQueue.songs[1..];
      }
      model := model[g := serverQueue.View()];
      forall h | h in queues
        ensures queues[h].guild == h && queues[h].View() == model[h]
      {
        if h != g {
          assert queues[h] != serverQueue;
        }
      }
    }

    /**
     * The Idle listener (play.js:163-166): it holds the record it was
     * registered for, shifts that record's list and calls playSong.
     */
    method OnIdle(g: GuildId, serverQueue: GuildQueue, streamOk: string -> bool) returns (events: seq<Event>)
      requires Valid() && g in queues && queues[g] == serverQueue && Ready(model[g])
      modifies this, serverQueue
      ensures Valid()
      ensures forall h :: h in queues && h in old(queues) ==> queues[h] == old(queues)[h]
      ensures Step(model, events) == FinishedSpec(old(model), g, streamOk)
    {
      ShiftSongs(g, serverQueue);
      events := PlaySong(g, streamOk);
    }

    /** execute (play.js:16-135). */
    method Execute(req: Request, resolver: Resolver, setup: VoiceSetup, streamOk: string -> bool)
      returns (events: seq<Event>)
      requires Valid()
      modifies this, queues.Values
      ensures Valid()
      ensures forall h :: h in queues && h in old(queues) ==> queues[h] == old(queues)[h]
      ensures Step(model, events) == ExecuteSpec(old(model), req, resolver, setup, streamOk)
    {
      if |req.args| == 0 {
        return [Replied(MissingArgument)];
      }
      if req.voiceChannel.None? {
        return [Replied(NotInVoice)];
      }
      if !req.canConnect || !req.canSpeak {
        return [Replied(NoPermission)];
      }
      var voiceChannel := req.voiceChannel.value;
      var serverQueue := if req.guild in queues then Some(queues[req.guild]) else None;
      var song;
      match Resolve(JoinArgs(req.args), req.author, resolver) {
        case LookupThrew => return [Unhandled];
        case NoMatch => return [Replied(NotFound)];
        case SearchThrew => return [Replied(SearchError)];
        case Found(found) => song := found;
      }
      if serverQueue.None? {
        events := CreateQueue(req.guild, voiceChannel, req.textChannel, song, setup, streamOk);
      } else {
        events := AppendSong(req.guild, serverQueue.value, song);
      }
    }

    /**
     * The no-entry branch of execute (play.js:76-115): the record goes into
     * the map, with the song as its only entry, before connecting.
     */
    method CreateQueue(g: GuildId, voiceChannel: ChannelId, textChannel: ChannelId, song: Song,
                       setup: VoiceSetup, streamOk: string -> bool) returns (events: seq<Event>)
      requires Valid() && g !in queues
      modifies this
      ensures Valid()
      ensures forall h :: h in queues && h in old(queues) ==> queues[h] == old(queues)[h]
      ensures Step(model, events) == CreateSpec(old(model), g, voiceChannel, textChannel, song, setup, streamOk)
    {
      ghost var before := model;
      var q := new GuildQueue(g, voiceChannel, textChannel);
      queues := queues[g := q];
      q.songs := q.songs + [song];
      assert q.View() == Entry(voiceChannel, textChannel, None, None, [song], InitialVolume, true);
      model := model[g := q.View()];
      forall h | h in queues
        ensures queues[h].guild == h && queues[h].View() == model[h]
      {
        if h != g {
          assert queues[h] != q;
        }
      }
      assert model - {g} == before;
      events := Connect(g, q, setup, streamOk);
    }

    /**
     * The try block of play.js:91-115 for a record just put in the map:
     * open the session, then start the head; if opening throws, the
     * entry is gone again.
     */
    method Connect(g: GuildId, serverQueue: GuildQueue, setup: VoiceSetup, streamOk: string -> bool)
      returns (events: seq<Event>)
      requires Valid() && g in queues && queues[g] == serverQueue
      requires model[g] == Entry(serverQueue.voiceChannel, serverQueue.textChannel, None, None,
                                 serverQueue.songs, InitialVolume, true)
      requires |serverQueue.songs| == 1
      modifies this, serverQueue
      ensures Valid()
      ensures forall h :: h in queues && h in old(queues) ==> queues[h] == old(queues)[h]
      ensures Step(model, events)
           == CreateSpec(old(model) - {g}, g, serverQueue.voiceChannel, serverQueue.textChannel,
                         old(serverQueue.songs[0]), setup, streamOk)
    {
      ghost var others := model - {g};
      ghost var entry := model[g];
      ghost var vc := serverQueue.voiceChannel;
      ghost var song := serverQueue.songs[0];
      assert entry == Entry(vc, serverQueue.textChannel, None, None, [song], InitialVolume, true);
      assert model == others[g := entry];
      CreateCases(others, g, vc, serverQueue.textChannel, song, setup, streamOk);
      events := OpenSession(g, serverQueue, setup);
      if setup == Connected {
        var started := PlaySong(g, streamOk);
        events := events + started;
      }
    }

    /**
     * The try/catch of play.js:91-115 up to the first playSong: join the
     * voice channel, create the player and subscribe it; if joining or
     * creating the player throws, delete the guild's entry.
     */
    method OpenSession(g: GuildId, serverQueue: GuildQueue, setup: VoiceSetup) returns (events: seq<Event>)
      requires Valid() && g in queues && queues[g] == serverQueue
      modifies this, serverQueue
      ensures Valid()
      ensures forall h :: h in queues && h in old(queues) ==> queues[h] == old(queues)[h]
      ensures var vc := serverQueue.voiceChannel;
        match setup
        case Connected =>
          && g in queues && queues[g] == serverQueue
          && model == old(model)[g := old(model)[g].(connection := Some(Connection(vc)),
                                                     player := Some(Player(None, 0)))]
          && events == [Joined(vc)]
        case JoinThrows =>
          && model == old(model) - {g} && events == [Replied(ConnectError)]
          && serverQueue.connection == old(serverQueue.connection)
        case PlayerThrows =>
          && model == old(model) - {g} && events == [Joined(vc), Replied(ConnectError)]
          && serverQueue.connection == Some(Connection(vc))
    {
      var voiceChannel := serverQueue.voiceChannel;
      if setup == JoinThrows {
        queues := queues - {g};
        model := model - {g};
        return [Replied(ConnectError)];
      }
      serverQueue.connection := Some(Connection(voiceChannel));
      if setup == PlayerThrows {
        queues := queues - {g};
        model := model - {g};
        return [Joined(voiceChannel), Replied(ConnectError)];
      }
      serverQueue.player := Some(Player(None, 0));
      model := model[g := serverQueue.View()];
      forall h | h in queues
        ensures queues[h].guild == h && queues[h].View() == model[h]
      {
        if h != g {
          assert queues[h] != serverQueue;
        }
      }
      events := [Joined(voiceChannel)];
    }

    /** The existing-entry branch of execute (play.js:116-133). */
    method AppendSong(g: GuildId, serverQueue: GuildQueue, song: Song) returns (events: seq<Event>)
      requires Valid() && g in queues && queues[g] == serverQueue
      modifies this, serverQueue
      ensures Valid()
      ensures forall h :: h in queues && h in old(queues) ==> queues[h] == old(queues)[h]
      ensures g in queues && queues[g] == serverQueue
      ensures Step(model, events) == AppendSpec(old(model), g, song)
    {
      serverQueue.songs := serverQueue.songs + [song];
      model := model[g := serverQueue.View()];
      forall h | h in queues
        ensures queues[h].guild == h && queues[h].View() == model[h]
      {
        if h != g {
          assert queues[h] != serverQueue;
        }
      }
      events := [AddedToQueue(song, |serverQueue.songs| - 1)];
    }
  }

  /** CreateSpec by cases, with the record inserted and deleted again folded away. */
  lemma CreateCases(s: State, g: GuildId, vc: ChannelId, tc: ChannelId, song: Song,
                    setup: VoiceSetup, streamOk: string -> bool)
    requires g !in s
    ensures var entry := Entry(vc, tc, None, None, [song], InitialVolume, true);
      var session := s[g := entry][g := entry.(connection := Some(Connection(vc)), player := Some(Player(None, 0)))];
      var step := CreateSpec(s, g, vc, tc, song, setup, streamOk);
      match setup
      case Connected =>
        step == Step(PlaySongSpec(session, g, streamOk).state, [Joined(vc)] + PlaySongSpec(session, g, streamOk).events)
      case JoinThrows => step == Step(s[g := entry] - {g}, [Replied(ConnectError)])
      case PlayerThrows => step == Step(s[g := entry] - {g}, [Joined(vc), Replied(ConnectError)])
  {
    var entry := Entry(vc, tc, None, None, [song], InitialVolume, true);
    var joined := entry.(connection := Some(Connection(vc)));
    assert s[g := entry] - {g} == s == s[g := joined] - {g};
    assert s[g := entry][g := joined.(player := Some(Player(None, 0)))] == s[g := joined.(player := Some(Player(None, 0)))];
  }
}
