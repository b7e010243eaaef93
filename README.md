# Suno Discord bot: playback state machine and generation polling

This project models the core of a Discord bot that asks the Suno service for
generated music and plays the resulting tracks in the voice channels of
guilds (Discord servers), independently in each guild and one track at a
time per guild. It covers three parts of `bot.py`:

- **`MusicPlayer`**, the per-guild playback state machine. It keeps three
  dictionaries keyed by guild id: `voice_clients`, `queues` and
  `current_songs`. Its operations are `get_queue`, `add_to_queue`,
  `join_voice_channel`, `leave_voice_channel`, `play`, the finished callback
  `_song_finished` and `skip`.
  - `music_player.dfy` holds the class, with the three dictionaries as
    fields that its methods update in place.
  - `player_state.dfy` holds the same state as a value, with one function per
    operation. Each class method is proved to produce exactly the state that
    its function computes from the old state.
  - The voice transport is reduced to two facts per voice client: whether it
    is connected, and which file it is playing (if any). Its effects are
    recorded in two ghost logs: the paths handed to `os.remove`, and the
    calls made on the transport (connect, start playback, stop, disconnect).
  - Two events come from the transport rather than from the bot:
    `PlaybackEnds` (the file runs out) and `ConnectionLost`.
  - The transport's `after` callback is the explicit method `SongFinished`.
    A caller may invoke it at any time.
- **The polling loop of `SunoClient._poll_generation`**, in `polling.dfy`.
  It is modelled over the sequence of the provider's answers to successive
  polls. A request that raises a connection or timeout error in
  `session.get` is the answer `NoAnswer`. The method `PollGeneration`
  follows the source's `for attempt in range(60)` loop and is proved equal
  to a recursive reference definition. Lemmas characterise each of its five
  outcomes.
- **The search-result title rule**, in `search_title.dfy`. Prompts longer
  than 50 characters are shown as their first 50 characters followed by
  `...`.

`player_properties.dfy` states what holds across several operations:
- leaving twice is leaving once;
- what the finished callback does in each situation;
- the invariant tying the playing file to the current song;
- each operation touches only its own guild;
- in every session, the files started in a guild are some of the files
  added to its queue, in the order in which they were added, with none
  started twice;
- while no leave and no lost connection reaches the guild, the files
  started are exactly a prefix of the files added.

The model follows the code where a reader might expect otherwise:
- `leave_voice_channel` removes no temporary file, although one might
  expect leaving to delete the downloaded files. When the finished callback
  fired by the disconnect runs after `leave_voice_channel` has returned, the
  files of the current song and of the queued songs stay on disk, as
  `FinishedAfterLeaveChangesNothing` shows.
- `_song_finished` does not clear `current_songs`. So "a current song exists
  exactly when the transport is playing" holds in one direction only: while
  a file plays, it is the current song's file (`Consistent`).
- `_song_finished` removes the file of whatever song is current when it
  runs. If another `play` has already started the next song, it removes that
  song's file (`FinishedWhilePlayingRemovesPlayingFile`).
- `play` on a voice client that is no longer connected has already taken
  the head of the queue and made it the current song when
  `voice_client.play` raises. The model returns `raised = true` in that
  state.

## Model

| member | source | states |
|---|---|---|
| `Polling.Verdict` | bot.py:76-91 | a failed request, a non-200 answer or a terminal status at poll n ends the loop after exactly n polls; it is a network error exactly when the request failed, an HTTP error exactly when the status is not 200; a completion returns the answer's record |
| `Polling.PollFrom` | bot.py:74-96 | the loop never makes more than 60 polls, and from attempt a on it makes at least one more poll |
| `Polling.PollGeneration` | bot.py:72-96 | the source's loop, with its early returns and raises, yields exactly the outcome of the reference definition |
| `Polling.PollFromCharacterized` | bot.py:75-96 | a timeout happens exactly when every remaining answer is pending; otherwise the first non-pending answer decides the outcome, and all earlier answers were pending |
| `Polling.PollCompleted` | bot.py:85-89 | the record is returned after exactly n polls iff answer n is 200 with status "completed", that record, and every earlier answer is pending (both directions) |
| `Polling.PollFailed` | bot.py:90-91 | "failed" on poll n ends the loop with the provider's error after exactly n polls, with no further poll (both directions) |
| `Polling.PollHttpError` | bot.py:80-83 | a non-200 answer on poll n ends the loop with that status and text after exactly n polls: HTTP errors are never retried (both directions) |
| `Polling.PollNetworkError` | bot.py:76-79 | a connection or timeout error raised by the request of poll n ends the loop after exactly n polls, with no retry (both directions) |
| `Polling.PollTimeout` | bot.py:95-96 | the loop times out iff all 60 requests were answered with 200 and a status neither "completed" nor "failed" |
| `Polling.PollReadsOnlyPolled` | bot.py:75-96 | answers after the last poll made cannot change the outcome |
| `SearchResults.FieldTitle` | bot.py:477 | a prompt of at most 50 characters is shown unchanged; a longer one is shown as its first 50 characters followed by "...", 53 characters in all |
| `PlayerState.GetQueue` | bot.py:176-180 | an unseen guild gets an empty queue, which is returned; a known guild's queue is returned and nothing changes; no other guild's entries and no log change |
| `PlayerState.AddToQueue` | bot.py:182-185 | the guild's queue becomes the old queue (empty if none) followed by the song; nothing else changes |
| `PlayerState.Join` | bot.py:187-198 | a connected client is reused and nothing changes; otherwise a new idle, connected client replaces it and one connect is logged; the result is always connected |
| `PlayerState.Leave` | bot.py:200-213 | the guild is absent from all three dictionaries; a disconnect is logged iff the client was connected; no file is removed; other guilds are untouched |
| `PlayerState.Play` | bot.py:215-242 | no voice client, or one already playing: nothing changes. Idle with an empty queue: the guild is torn down. Idle with songs waiting: the head becomes current, the rest keeps its order, and playback of the head's file starts (or, if not connected, `play` raises and nothing is played) |
| `PlayerState.SongFinished` | bot.py:244-257 | the current song's file, if there is a current song, is removed; the guild then advances exactly as `play` would from the old state |
| `PlayerState.Skip` | bot.py:259-270 | returns true iff the guild's client is playing; then exactly one stop is logged and the client becomes idle; otherwise nothing changes |
| `PlayerState.PlaybackEnds` | bot.py:237-242 | the end of the file leaves the guild's client idle and changes nothing else |
| `PlayerState.ConnectionLost` | bot.py:192-196 | a lost connection leaves the client in the dictionary, not connected and not playing |
| `Player.MusicPlayer.constructor` | bot.py:170-174 | a new player knows no guild and has logged nothing |
| `Player.MusicPlayer.GetQueue` | bot.py:176-180 | the in-place update and the returned queue are those of `PlayerState.GetQueue` |
| `Player.MusicPlayer.AddToQueue` | bot.py:182-185 | the in-place append is that of `PlayerState.AddToQueue` |
| `Player.MusicPlayer.JoinVoiceChannel` | bot.py:187-198 | the new state and the returned client are those of `PlayerState.Join` |
| `Player.MusicPlayer.LeaveVoiceChannel` | bot.py:200-213 | the three conditional deletions give the state of `PlayerState.Leave` |
| `Player.MusicPlayer.Play` | bot.py:215-242 | the new state and whether `voice_client.play` raised are those of `PlayerState.Play` |
| `Player.MusicPlayer.SongFinished` | bot.py:244-257 | the new state is that of `PlayerState.SongFinished` |
| `Player.MusicPlayer.Skip` | bot.py:259-270 | the new state and the result are those of `PlayerState.Skip` |
| `Player.MusicPlayer.PlaybackEnds` | bot.py:237-242 | the new state is that of `PlayerState.PlaybackEnds` |
| `Player.MusicPlayer.ConnectionLost` | bot.py:192-196 | the new state is that of `PlayerState.ConnectionLost` |
| `PlayerProperties.LeaveIdempotent` | bot.py:200-213 | a second leave changes nothing |
| `PlayerProperties.FinishedAfterLeaveChangesNothing` | bot.py:244-257 | the callback fired by leaving removes no file and changes nothing |
| `PlayerProperties.FinishedAdvances` | bot.py:249-257 | after a track ends with songs waiting, its file is removed and the next song's file starts playing, in queue order |
| `PlayerProperties.FinishedTearsDown` | bot.py:227-230 | after the last track ends, its file is removed, one disconnect is logged and the guild is absent from all three dictionaries |
| `PlayerProperties.FinishedWhilePlayingRemovesPlayingFile` | bot.py:249-257 | a callback arriving while a song plays removes the playing song's file and changes nothing else |
| `PlayerProperties.SkipAdvancesLikeTrackEnd` | bot.py:259-270 | a skip followed by its callback gives the same dictionaries and removed files as a natural track end followed by its callback, plus exactly one logged stop |
| `PlayerProperties.StepPreservesConsistent` | bot.py:233-242 | every operation and transport event keeps the invariant that a playing client plays the current song's file |
| `PlayerProperties.RunPreservesConsistent` | bot.py:215-270 | the invariant holds after any sequence of operations and events |
| `PlayerProperties.StepOthersUnchanged` | bot.py:172-174 | every operation changes only its own guild's dictionary entries |
| `PlayerProperties.StepCallsOwnGuild` | bot.py:187-270 | every operation calls the transport only for its own guild, and only appends to the log |
| `PlayerProperties.RunKeepsOrder` | bot.py:182-242 | while a guild is neither left nor disconnected, the files started followed by the files queued always equal the earlier ones followed by the files added, in insertion order |
| `PlayerProperties.PlaybackFollowsInsertionOrder` | bot.py:182-242 | from a fresh player, while no leave or lost connection reaches a guild, the files whose playback started in it are a prefix of the files added to its queue |
| `PlayerProperties.PlayShrinksOrder` | bot.py:215-242 | `play` keeps a guild's started-then-queued files, except that a raising `voice_client.play` drops the head it took off the queue |
| `PlayerProperties.FinishedShrinksOrder` | bot.py:244-257 | the finished callback leaves a guild's started-then-queued files a subsequence of the earlier ones: it starts no file out of order |
| `PlayerProperties.LeaveShrinksOrder` | bot.py:200-213 | leaving drops the guild's queued files and starts none |
| `PlayerProperties.StepShrinksOrder` | bot.py:172-270 | any operation or transport event, in any guild, leaves a guild's started-then-queued files a subsequence of the earlier ones followed by the file it adds |
| `PlayerProperties.RunShrinksOrder` | bot.py:172-270 | after any sequence of operations and events, a guild's started-then-queued files are a subsequence of the earlier ones followed by the files added, in insertion order |
| `PlayerProperties.PlaybackNeverReorders` | bot.py:182-242 | from a fresh player, whatever happens (leaves and lost connections included), the files whose playback started in a guild are a subsequence of the files added to its queue: none is started twice or ahead of an earlier one |
| `PlayerProperties.TwoSongSession` | bot.py:176-270 | join, add two songs, let the first end and skip the second: both files are removed in order, the second starts only after the first, and the player disconnects once and forgets the guild |

## Left out

- The HTTP calls of `SunoClient` are not modelled: the submission in `generate_music`, `get_generation`, `get_audio_url`, the chunked `download_audio` and `search_generations`. They are network and file plumbing whose only logic is a status check. The model starts from the answers they return.
- `Polling.PollGeneration`: the outcomes of the requests are given as a sequence of at least 60 entries, one per possible poll; a request that raised a connection or timeout error in `session.get` is the entry `NoAnswer`. The loop reads only a prefix of it (`PollReadsOnlyPolled`). The kind of network error is not modelled. The generation id and the URL it is put into are not modelled.
- The five-second `asyncio.sleep` between polls is not modelled; it is timing only.
- A response body that is not valid JSON, and a `status` field that is not a string, are not modelled.
- The voice transport itself (discord.py's `VoiceClient`, `FFmpegPCMAudio`, `voice_channel.connect()`) is reduced to a connected flag and the file being played. Failures of `connect()` and of starting ffmpeg are not modelled. Pausing does not occur in the bot and is not modelled.
- `run_coroutine_threadsafe` in the `after` lambda: the callback is the method `SongFinished`, which a caller may invoke at any point. Each operation runs atomically; interleavings at the `await` points inside one operation are not modelled.
- In particular, the finished callback running during `leave_voice_channel`'s `await voice_client.disconnect()` (bot.py:205) is not modelled: it would remove the current song's file and, with an empty queue, delete the guild's entries, so that the `del self.voice_clients[guild_id]` at bot.py:206 raises `KeyError`. The model only covers the callback running after the leave has returned.
- The `error` argument of `_song_finished` is only logged and is not modelled.
- `os.remove` is a log of removed paths. Its exceptions are swallowed in the source, so a failed removal looks the same as a successful one.
- Command dispatch, help text, message editing and embeds are not modelled, including the `"{i}. "` numbering of search fields and the "Unknown track" default prompt. Only the 50-character title rule is modelled.
- Environment variables, configuration and bot start-up are not modelled.
- Logging is not modelled.
