# play.js — per-guild music queue and duration formatting, in Dafny

The Discord bot's `play` command keeps one playback queue per guild in a
module-level `Map` from guild id to a queue record. The record holds:

- the voice and text channels;
- the connection and the audio player;
- the list of songs;
- the volume and the playing flag.

A request is handled in three steps:

1. It is validated: there must be an argument, the caller must be in a voice channel, and the bot must have CONNECT and SPEAK.
2. It is resolved to a track: a URL is looked up directly, anything else is searched.
3. It either creates the guild's entry and connects, or it appends to the existing entry.

`playSong` plays the head of the list. It also:

- registers an Idle listener that drops the head and plays the next song;
- on a stream error, drops the head and retries with the next song;
- when the list is empty, destroys the connection and deletes the entry.

`formatDuration` prints a number of seconds as `H:MM:SS`, or as `M:SS` when there is no whole hour.

The project is split into these modules:

- `Duration` (duration.dfy): `formatDuration` as a function, and a decimal reader and field splitter that parse its output back. The main result is the round trip.
- `Songs` (songs.dfy): the track descriptor and `Resolve`. The lookup, search and URL test are fields of a `Resolver` value; a `None` from a lookup or search means that call threw.
- `Playback` (playback.dfy): the queue registry as a pure state machine (`map<GuildId, Entry>`). Each operation is a function from a state to a `Step`, which is the new state plus the events the user sees (replies, "now playing", "added to queue", error notices, join and destroy of the voice connection).
- `PlaybackProperties` (playback_props.dfy): the properties the command promises, as lemmas about those functions.
- `PlayCommand` (registry.dfy): the same operations as imperative code.
  - The queue record is a class, `GuildQueue`, whose fields are updated in place.
  - The `Map` is a class, `QueueRegistry`, whose `queues` field the methods reassign.
  - The methods call each other as the source does: `Execute`, `PlaySong` and the Idle listener `OnIdle`.
  - `PlaySong`, `OnIdle`, `Execute`, `CreateQueue`, `Connect` and `AppendSong` are proved to produce exactly the state and events of their specification functions in `Playback`.
  - The helpers `Teardown`, `StartHead`, `ShiftSongs` and `OpenSession` state their own effect on the map and the records.
  - Every method also keeps each guild's record object: a guild that was in the map before and is still there holds the same record. This is what lets the Idle listener, which holds the record it was registered for, keep working on the map's entry.
  - `Valid()` relates the records to a ghost map of plain values and states that each record belongs to its own key.
- `Wrappers` (wrappers.dfy): `Option`.

These effects are parameters of the model:

- whether the voice join and the player creation succeed: the `VoiceSetup` value;
- whether the audio stream for a URL can be acquired: `streamOk`.

## Model

| member | source | states |
|---|---|---|
| Duration.Decimal | play.js:199 | the decimal text of a number (what `toString()` prints for integers below 10^21) is a non-empty run of digits |
| Duration.DecimalRoundTrip | play.js:199 | reading the printed decimal digits back gives the number |
| Duration.DecimalShape | play.js:199-201 | the printed number starts with '0' only for zero; it is one digit exactly below ten, two digits from 10 to 99 |
| Duration.TwoDigitField | play.js:199-201 | `padStart(2, '0')` of a value below 100 is exactly two digits that read back as the value |
| Duration.FieldsAfterField | play.js:199 | splitting at ':' after a run of digits separates that run as the first field |
| Duration.DivModSplit | play.js:194-196 | minutes and seconds are below 60 and `h*3600 + m*60 + sec` equals the input |
| Duration.FormatDurationFields | play.js:193-203 | three fields exactly when `s / 3600 > 0`, otherwise two; every field is digits; the padded fields are exactly two digits; minutes and seconds below 60; neither the hours field nor the unpadded minutes field has a leading zero, except the minutes field `0`; the unpadded minutes are one character exactly when below ten |
| Duration.FormatDurationRoundTrip | play.js:193-203 | parsing the printed H:MM:SS or M:SS text recovers the number of seconds |
| Duration.FormatDurationInjective | play.js:193-203 | two different durations are never printed alike |
| Songs.Resolve | play.js:36-73 | a URL is looked up and the song carries its URL and its formatted duration, which parses back to the length; an empty thumbnail list or a throwing lookup escapes; otherwise the first search hit is taken; no hit and a throwing search are told apart; the requester is recorded |
| Playback.Shift | play.js:164 | `shift()` drops the head of a non-empty list and leaves an empty list empty |
| Playback.FirstPlayable | play.js:149-189 | the index of the first song whose stream can be acquired: every song before it fails, and it is the list's length when none can be acquired |
| Playback.PlaySongSpec | play.js:139-190 | playSong changes only the guild it was called for and emits at most one event per song plus one |
| PlaybackProperties.PlaySongOutcome | play.js:139-190 | the retry chain in closed form: the k failing heads are dropped with one error notice each, then song k starts with one more Idle listener, or the connection is destroyed and the entry removed |
| PlaybackProperties.PlaySongEvents | play.js:142-189 | the events of playSong: k error notices, then "now playing" for song k or the destroy of the connection |
| PlaybackProperties.PlaySongState | play.js:142-189 | the state after playSong: the list is the suffix from song k and the player plays it, or the guild's entry is gone; other guilds are untouched |
| PlaybackProperties.RetryChainTerminates | play.js:182-189 | the retry chain emits between 1 and `songs.length + 1` events; all but the last are error notices; it ends with a started head (the entry then plays a suffix of its list) or, exactly when every stream fails, with the entry removed and the connection destroyed |
| PlaybackProperties.FinishedRemovesHead | play.js:163-166 | an Idle event removes exactly the head; it tears down when the rest is empty, plays the new head when its stream works, and otherwise starts the retry chain on a shorter list |
| PlaybackProperties.FinishedAddsListener | play.js:163 | each track started from an Idle event adds one more Idle listener to the same player, so there are at least two from then on |
| PlaybackProperties.RejectedRequestsChangeNothing | play.js:18-72 | no argument, no voice channel, no CONNECT or SPEAK, no search hit and a throwing search each produce their reply and leave the map unchanged; a throwing direct lookup leaves it unchanged with no reply |
| PlaybackProperties.ReplyMeansNoChange | play.js:18-115 | whenever execute answers with a single reply, the map is as before |
| PlaybackProperties.EnqueueCreatesEntry | play.js:76-109 | the first request for a guild creates an entry with the song as its only element, volume 5 and playing set, joins the channel and starts the song; if the song's stream fails, the entry is removed again |
| PlaybackProperties.ConnectFailureLeavesNoEntry | play.js:88-114 | if joining or creating the player throws, no entry remains for the guild, the map is as before and the connect error is replied; a join that succeeded is never destroyed |
| PlaybackProperties.EnqueueAppends | play.js:116-129 | for an existing entry the song goes to the tail; earlier songs, the player and all other guilds are unchanged; the reported position is `songs.length - 1` |
| PlaybackProperties.ExecutePreservesWellFormed | play.js:16-135 | after execute, every entry in the map has a connection and a player that plays the entry's head |
| PlaybackProperties.FinishedPreservesWellFormed | play.js:163-166 | the same holds after an Idle event |
| PlayCommand.GuildQueue.constructor | play.js:77-85 | the record literal: no connection or player, no songs, volume 5, playing |
| PlayCommand.QueueRegistry.constructor | play.js:7 | the map starts empty |
| PlayCommand.QueueRegistry.PlaySong | play.js:139-190 | playSong on the records gives exactly the state and events of `PlaySongSpec`; every guild still in the map keeps its record object |
| PlayCommand.QueueRegistry.Teardown | play.js:142-146 | the connection is destroyed and only the guild's entry is deleted |
| PlayCommand.QueueRegistry.StartHead | play.js:151-166 | only the guild's record changes: its player plays the head and carries one more Idle listener; the record stays the guild's entry |
| PlayCommand.QueueRegistry.ShiftSongs | play.js:187 | only the guild's record changes: its list loses its head |
| PlayCommand.QueueRegistry.OnIdle | play.js:163-166 | the Idle listener gives exactly the state and events of `FinishedSpec` |
| PlayCommand.QueueRegistry.Execute | play.js:16-135 | execute on the records gives exactly the state and events of `ExecuteSpec`; every guild that was and still is in the map keeps its record object |
| PlayCommand.QueueRegistry.CreateQueue | play.js:76-115 | the record is put in the map with the song before connecting; the result is `CreateSpec` |
| PlayCommand.QueueRegistry.Connect | play.js:91-115 | the try/catch around connecting gives `CreateSpec` for the record just inserted |
| PlayCommand.QueueRegistry.OpenSession | play.js:93-114 | a join that succeeds stores the connection and a fresh player; a throwing join deletes the entry and leaves its connection unset; a throwing player creation or subscribe deletes the entry after the connection was stored |
| PlayCommand.QueueRegistry.AppendSong | play.js:116-133 | pushes the song onto the existing record, which stays the guild's entry, and reports its position; the result is `AppendSpec` |

## Left out

- index.js is not part of this model. It covers client construction, the database connection, command and event loading, the rejection logger and shutdown, all of which is I/O around external libraries.
- The internals of ytdl-core, yt-search and @discordjs/voice are not modelled. They are parameters: the `Resolver` value, the `VoiceSetup` value and `streamOk`.
- `streamOk` depends on the URL only. A stream that fails for one attempt and works for the next is not represented.
- Stream errors that arrive asynchronously, after `play` returned, are not modelled.
- Embed contents (colour, thumbnail, timestamp, field labels) and the reply texts are left out. Only the kind of event is recorded (`Reply`, `Event`); for "added to queue" the position is recorded too.
- Requests run one at a time. The interleaving of two requests for the same guild across the awaits at play.js:41 and play.js:53 is concurrency and is left out.
- Idle listeners accumulate on the player (play.js:163). The model counts them in `Player.idleListeners`, and one Idle event in the model is one listener firing: one `shift` and one `playSong`. In play.js every registered listener runs on each Idle, so after the second track one Idle event drops several songs. That emit-time behaviour is not modelled.
- PlayCommand.QueueRegistry.OnIdle requires that the record it holds is still the guild's entry. A listener firing for a record already removed from the map is not modelled; in play.js it would shift that old record and then look up whatever entry the guild has by then.
- `highWaterMark` (play.js:154) is not modelled, and neither are `volume` and `playing` beyond their initial values. Nothing in the command reads them.
- Duration.FormatDuration takes a `nat`. The source receives the length as a string and relies on JavaScript's coercion in `/` and `%` (play.js:45).
- Duration.FormatDuration and Duration.Decimal use unbounded integers. JavaScript numbers are doubles, so the model matches the source only below 2^53 seconds. Above that, `/` and `%` are inexact, and from 10^21 hours `toString()` prints exponent notation.
- Playback.PlaySongSpec: a failed stream (`streamOk` false) leaves the player untouched and registers no listener. This assumes that any synchronous throw in playSong's try block (play.js:149-181) happens before `player.play` (play.js:160). A throw after that point would leave the head playing with its Idle listener registered, while the catch shifts it off and starts the next song. That case is not modelled.
- Search hits keep their own `timestamp` text as the duration. It is not produced by `formatDuration`, so nothing is proved about it.
- When joining succeeds but `createAudioPlayer` or `subscribe` throws (play.js:102-106), the entry is deleted but the open connection is never destroyed. `ConnectFailureLeavesNoEntry` states this: no `Destroyed` event is emitted. The model keeps the behaviour as written.
- `console.error` logging is left out.
