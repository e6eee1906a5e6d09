/** What play.js promises about its queue, proved of the state machine in module Playback. */
module PlaybackProperties {
  import opened Wrappers
  import opened Songs
  import opened Playback

  /** k playback-error notices in a row. */
  function Failures(k: nat): (r: seq<Event>)
    ensures |r| == k && forall i :: 0 <= i < k ==> r[i] == PlaybackFailed
  {
    seq(k, _ => PlaybackFailed)
  }

  /**
   * The error-retry chain of playSong, in closed form: the first k songs whose
   * streams fail are dropped, one error notice each; then either song k starts
   * (and one more Idle listener is registered), or, when every song failed,
   * the connection is destroyed and the guild's entry removed.
   */
  lemma PlaySongOutcome(s: State, g: GuildId, streamOk: string -> bool)
    requires g in s && Ready(s[g])
    ensures var e := s[g];
      var k := FirstPlayable(e.songs, streamOk);
      var r := PlaySongSpec(s, g, streamOk);
      && r.events == Failures(k) + (if k < |e.songs| then [NowPlaying(e.songs[k])]
                                    else [Destroyed(e.connection.value.channel)])
      && r.state == (if k < |e.songs|
                     then s[g := e.(songs := e.songs[k..],
                                    player := Some(Player(Some(e.songs[k]), e.player.value.idleListeners + 1)))]
                     else s - {g})
  {
    PlaySongEvents(s, g, streamOk);
    PlaySongState(s, g, streamOk);
  }

  /** The events half of PlaySongOutcome. */
  lemma {:induction false} PlaySongEvents(s: State, g: GuildId, streamOk: string -> bool)
    requires g in s && Ready(s[g])
    ensures var e := s[g];
      var k := FirstPlayable(e.songs, streamOk);
      PlaySongSpec(s, g, streamOk).events
        == Failures(k) + (if k < |e.songs| then [NowPlaying(e.songs[k])]
                          else [Destroyed(e.connection.value.channel)])
    decreases |s[g].songs|
  {
    var e := s[g];
    if e.songs != [] && !streamOk(e.songs[0].url) {
      var e' := e.(songs := e.songs[1..]);
      var s' := s[g := e'];
      PlaySongEvents(s', g, streamOk);
      var k' := FirstPlayable(e'.songs, streamOk);
      assert FirstPlayable(e.songs, streamOk) == k' + 1;
      assert [PlaybackFailed] + Failures(k') == Failures(k' + 1);
      if k' < |e'.songs| {
        assert e'.songs[k'] == e.songs[k' + 1];
      }
    }
  }

  /** The state half of PlaySongOutcome. */
  lemma {:induction false} PlaySongState(s: State, g: GuildId, streamOk: string -> bool)
    requires g in s && Ready(s[g])
    ensures var e := s[g];
      var k := FirstPlayable(e.songs, streamOk);
      PlaySongSpec(s, g, streamOk).state
        == (if k < |e.songs|
            then s[g := e.(songs := e.songs[k..],
                           player := Some(Player(Some(e.songs[k]), e.player.value.idleListeners + 1)))]
            else s - {g})
    decreases |s[g].songs|
  {
    var e := s[g];
    if e.songs != [] && !streamOk(e.songs[0].url) {
      var e' := e.(songs := e.songs[1..]);
      var s' := s[g := e'];
      PlaySongState(s', g, streamOk);
      var k' := FirstPlayable(e'.songs, streamOk);
      assert FirstPlayable(e.songs, streamOk) == k' + 1;
      assert s' - {g} == s - {g};
      if k' < |e'.songs| {
        assert e'.songs[k'..] == e.songs[k' + 1..];
        assert s'[g := e'.(songs := e'.songs[k'..], player := Some(Player(Some(e'.songs[k']), e.player.value.idleListeners + 1)))]
            == s[g := e.(songs := e.songs[k' + 1..], player := Some(Player(Some(e.songs[k' + 1]), e.player.value.idleListeners + 1)))];
      }
    }
  }

  /**
   * The retry chain terminates within the list's length: at most |songs|
   * heads are dropped, and it ends with a started head or with no entry.
   */
  lemma RetryChainTerminates(s: State, g: GuildId, streamOk: string -> bool)
    requires g in s && Ready(s[g])
    ensures var r := PlaySongSpec(s, g, streamOk);
      && 1 <= |r.events| <= |s[g].songs| + 1
      && (forall i :: 0 <= i < |r.events| - 1 ==> r.events[i] == PlaybackFailed)
      && (g in r.state ==>
            && Active(r.state[g])
            && r.state[g].songs == s[g].songs[|r.events| - 1..]
            && r.events[|r.events| - 1] == NowPlaying(r.state[g].songs[0]))
      && (g !in r.state <==> (forall i :: 0 <= i < |s[g].songs| ==> !streamOk(s[g].songs[i].url)))
      && (g !in r.state ==> r.events[|r.events| - 1] == Destroyed(s[g].connection.value.channel))
  {
    PlaySongOutcome(s, g, streamOk);
  }

  /**
   * One Idle event removes exactly the head: the list becomes the old tail,
   * whose head then plays; if the tail is empty, the connection is destroyed
   * and the guild's entry removed.
   */
  lemma FinishedRemovesHead(s: State, g: GuildId, streamOk: string -> bool)
    requires WellFormed(s) && g in s
    ensures var e := s[g];
      var rest := e.songs[1..];
      var r := FinishedSpec(s, g, streamOk);
      && (rest == [] ==> r == Step(s - {g}, [Destroyed(e.connection.value.channel)]))
      && (rest != [] && streamOk(rest[0].url) ==>
            && r.state == s[g := e.(songs := rest, player := Some(Player(Some(rest[0]), e.player.value.idleListeners + 1)))]
            && r.events == [NowPlaying(rest[0])])
      && (rest != [] && !streamOk(rest[0].url) ==>
            r.events[0] == PlaybackFailed && (g in r.state ==> |r.state[g].songs| < |rest|))
  {
    var e := s[g];
    var s' := s[g := e.(songs := Shift(e.songs))];
    assert s'[g].songs == e.songs[1..];
    PlaySongOutcome(s', g, streamOk);
    if e.songs[1..] == [] {
      assert s' - {g} == s - {g};
    }
  }

  /**
   * Idle listeners accumulate: whenever an Idle event starts a new track,
   * the player carries one listener more than before, so at least two from
   * then on. The model's Idle event is a single listener firing; in play.js
   * every registered listener fires on each Idle.
   */
  lemma FinishedAddsListener(s: State, g: GuildId, streamOk: string -> bool)
    requires WellFormed(s) && g in s
    ensures var r := FinishedSpec(s, g, streamOk);
      g in r.state ==>
        && r.state[g].player.Some?
        && r.state[g].player.value.idleListeners == s[g].player.value.idleListeners + 1
        && r.state[g].player.value.idleListeners >= 2
  {
    var e := s[g];
    PlaySongOutcome(s[g := e.(songs := Shift(e.songs))], g, streamOk);
  }

  /** Rejected requests reply and leave the guild-to-queue map as it was (play.js:18-32, play.js:66-72). */
  lemma RejectedRequestsChangeNothing(s: State, req: Request, r: Resolver, setup: VoiceSetup, streamOk: string -> bool)
    ensures var step := ExecuteSpec(s, req, r, setup, streamOk);
      var passes := |req.args| > 0 && req.voiceChannel.Some? && req.canConnect && req.canSpeak;
      var res := Resolve(JoinArgs(req.args), req.author, r);
      && (|req.args| == 0 ==> step == Step(s, [Replied(MissingArgument)]))
      && (|req.args| > 0 && req.voiceChannel.None? ==> step == Step(s, [Replied(NotInVoice)]))
      && (|req.args| > 0 && req.voiceChannel.Some? && !(req.canConnect && req.canSpeak) ==>
            step == Step(s, [Replied(NoPermission)]))
      && (passes && res.NoMatch? ==> step == Step(s, [Replied(NotFound)]))
      && (passes && res.SearchThrew? ==> step == Step(s, [Replied(SearchError)]))
      && (passes && res.LookupThrew? ==> step == Step(s, [Unhandled]))
  {
  }

  /** Every request that ends in a single reply, whatever its kind, leaves the map unchanged. */
  lemma ReplyMeansNoChange(s: State, req: Request, r: Resolver, setup: VoiceSetup, streamOk: string -> bool, reply: Reply)
    requires ExecuteSpec(s, req, r, setup, streamOk).events == [Replied(reply)]
    ensures ExecuteSpec(s, req, r, setup, streamOk).state == s
  {
    var res := Resolve(JoinArgs(req.args), req.author, r);
    if |req.args| > 0 && req.voiceChannel.Some? && req.canConnect && req.canSpeak && res.Found? {
      if req.guild !in s {
        var e := Entry(req.voiceChannel.value, req.textChannel, None, None, [res.song], InitialVolume, true);
        assert s[req.guild := e] - {req.guild} == s;
      }
    }
  }

  /**
   * The first request for a guild creates its entry with the song as the only
   * element, volume 5 and the playing flag set, and starts that song; if its
   * stream cannot be acquired, the retry chain empties the list and tears the
   * session down again (play.js:76-109).
   */
  lemma EnqueueCreatesEntry(s: State, req: Request, r: Resolver, streamOk: string -> bool)
    requires |req.args| > 0 && req.voiceChannel.Some? && req.canConnect && req.canSpeak
    requires Resolve(JoinArgs(req.args), req.author, r).Found?
    requires req.guild !in s
    ensures var song := Resolve(JoinArgs(req.args), req.author, r).song;
      var vc := req.voiceChannel.value;
      var step := ExecuteSpec(s, req, r, Connected, streamOk);
      && (streamOk(song.url) ==>
            && step.state == s[req.guild := Entry(vc, req.textChannel, Some(Connection(vc)),
                                                  Some(Player(Some(song), 1)), [song], InitialVolume, true)]
            && step.events == [Joined(vc), NowPlaying(song)])
      && (!streamOk(song.url) ==>
            && step.state == s
            && step.events == [Joined(vc), PlaybackFailed, Destroyed(vc)])
  {
    var song := Resolve(JoinArgs(req.args), req.author, r).song;
    var vc := req.voiceChannel.value;
    var e := Entry(vc, req.textChannel, Some(Connection(vc)), Some(Player(None, 0)), [song], InitialVolume, true);
    var s0 := s[req.guild := e];
    PlaySongOutcome(s0, req.guild, streamOk);
    if !streamOk(song.url) {
      assert s0 - {req.guild} == s;
    }
  }

  /**
   * If joining the voice channel or creating the player throws while the
   * entry is being created, no entry remains for the guild and the map is
   * as before. When the join had succeeded, nothing destroys that connection.
   */
  lemma ConnectFailureLeavesNoEntry(s: State, req: Request, r: Resolver, setup: VoiceSetup, streamOk: string -> bool)
    requires |req.args| > 0 && req.voiceChannel.Some? && req.canConnect && req.canSpeak
    requires Resolve(JoinArgs(req.args), req.author, r).Found?
    requires req.guild !in s && setup != Connected
    ensures var step := ExecuteSpec(s, req, r, setup, streamOk);
      && req.guild !in step.state
      && step.state == s
      && step.events[|step.events| - 1] == Replied(ConnectError)
      && (setup == PlayerThrows <==> Joined(req.voiceChannel.value) in step.events)
      && forall c :: Destroyed(c) !in step.events
  {
    var song := Resolve(JoinArgs(req.args), req.author, r).song;
    var vc := req.voiceChannel.value;
    var e := Entry(vc, req.textChannel, None, None, [song], InitialVolume, true);
    assert s[req.guild := e] - {req.guild} == s;
    assert s[req.guild := e.(connection := Some(Connection(vc)))] - {req.guild} == s;
  }

  /**
   * A request for a guild that has an entry appends the song at the tail,
   * keeps the earlier songs and the player, leaves every other guild alone,
   * and reports the position `songs.length - 1` (play.js:116-129).
   */
  lemma EnqueueAppends(s: State, req: Request, r: Resolver, setup: VoiceSetup, streamOk: string -> bool)
    requires |req.args| > 0 && req.voiceChannel.Some? && req.canConnect && req.canSpeak
    requires Resolve(JoinArgs(req.args), req.author, r).Found?
    requires req.guild in s
    ensures var song := Resolve(JoinArgs(req.args), req.author, r).song;
      var step := ExecuteSpec(s, req, r, setup, streamOk);
      var g := req.guild;
      && step.state.Keys == s.Keys
      && (forall h :: h in s && h != g ==> step.state[h] == s[h])
      && |step.state[g].songs| == |s[g].songs| + 1
      && step.state[g].songs[..|s[g].songs|] == s[g].songs
      && step.state[g].songs[|s[g].songs|] == song
      && step.state[g].player == s[g].player
      && step.events == [AddedToQueue(song, |step.state[g].songs| - 1)]
  {
    var song := Resolve(JoinArgs(req.args), req.author, r).song;
    assert (s[req.guild].songs + [song])[..|s[req.guild].songs|] == s[req.guild].songs;
  }

  /** Between events, every entry plays its head: execute keeps this. */
  lemma ExecutePreservesWellFormed(s: State, req: Request, r: Resolver, setup: VoiceSetup, streamOk: string -> bool)
    requires WellFormed(s)
    ensures WellFormed(ExecuteSpec(s, req, r, setup, streamOk).state)
  {
    var step := ExecuteSpec(s, req, r, setup, streamOk);
    var res := Resolve(JoinArgs(req.args), req.author, r);
    if |req.args| > 0 && req.voiceChannel.Some? && req.canConnect && req.canSpeak && res.Found? {
      if req.guild !in s {
        if setup == Connected {
          EnqueueCreatesEntry(s, req, r, streamOk);
        } else {
          ConnectFailureLeavesNoEntry(s, req, r, setup, streamOk);
        }
      }
    }
  }

  /** ... and so does an Idle event. */
  lemma FinishedPreservesWellFormed(s: State, g: GuildId, streamOk: string -> bool)
    requires WellFormed(s) && g in s
    ensures WellFormed(FinishedSpec(s, g, streamOk).state)
  {
    var e := s[g];
    var s' := s[g := e.(songs := Shift(e.songs))];
    RetryChainTerminates(s', g, streamOk);
    var r := FinishedSpec(s, g, streamOk);
    forall h | h in r.state
      ensures Active(r.state[h])
    {
      if h != g {
        assert h in r.state - {g};
      }
    }
  }
}
