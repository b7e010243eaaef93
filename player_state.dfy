/**
 * The state of `MusicPlayer` as a value, and each of its operations as a
 * function from the old state to the new one. The class in music_player.dfy
 * is proved to follow these functions; the lemmas in player_properties.dfy
 * are about them.
 *
 * Three dictionaries keyed by guild id: the voice client, the queue of songs
 * waiting to be played and the song most recently taken off the queue. The
 * voice transport is reduced to two facts per voice client (is it connected,
 * which file is it playing), and its effects on the outside world are logged:
 * the temporary files passed to `os.remove` and the calls made on the
 * transport.
 */
module PlayerState {
  import opened Wrappers

  type GuildId = int
  type Path = string

  /** The `song_info` dictionary built by the commands that enqueue a track. */
  datatype Song = Song(title: string, generationId: string, filePath: Path)

  /** What the player can observe of one voice client: `is_connected()`, and `is_playing()` with the file it plays. */
  datatype Voice = Voice(connected: bool, playing: Option<Path>) {
    predicate IsPlaying() {
      playing.Some?
    }
  }

  datatype TransportCall =
    | Connect(guild: GuildId)
    | StartPlayback(guild: GuildId, path: Path)
    | StopPlayback(guild: GuildId)
    | Disconnect(guild: GuildId)

  datatype State = State(
    voiceClients: map<GuildId, Voice>,
    queues: map<GuildId, seq<Song>>,
    currentSongs: map<GuildId, Song>,
    deleted: seq<Path>,            // paths handed to os.remove, in order
    calls: seq<TransportCall>)     // calls made on the voice transport, in order

  /** A fresh player: no guild known, nothing deleted, no transport call. */
  const Initial := State(map[], map[], map[], [], [])

  /** One guild's entries in the three dictionaries. */
  datatype GuildView = GuildView(voice: Option<Voice>, queue: Option<seq<Song>>, current: Option<Song>)

  /** A guild that has no entry in any of the three dictionaries. */
  const Absent := GuildView(None, None, None)

  function Lookup<K, V>(m: map<K, V>, k: K): Option<V> {
    if k in m then Some(m[k]) else None
  }

  function View(s: State, g: GuildId): GuildView {
    GuildView(Lookup(s.voiceClients, g), Lookup(s.queues, g), Lookup(s.currentSongs, g))
  }

  /** Every guild other than `g` has the same entries in `s` and `t`. */
  ghost predicate OthersUnchanged(s: State, t: State, g: GuildId) {
    forall h :: h != g ==> View(t, h) == View(s, h)
  }

  /** The queue of `g`, reading a missing entry as empty. */
  function QueueOf(s: State, g: GuildId): seq<Song> {
    if g in s.queues then s.queues[g] else []
  }

  predicate Connected(s: State, g: GuildId) {
    g in s.voiceClients && s.voiceClients[g].connected
  }

  /** `g` has a voice client and it is not playing. */
  predicate Idle(s: State, g: GuildId) {
    g in s.voiceClients && !s.voiceClients[g].IsPlaying()
  }

  /** `get_queue`: the queue of `g`, created empty on first use. */
  function GetQueue(s: State, g: GuildId): (r: (State, seq<Song>))
    ensures r.1 == QueueOf(s, g)
    ensures View(r.0, g) == View(s, g).(queue := Some(r.1))
    ensures g in s.queues ==> r.0 == s
    ensures OthersUnchanged(s, r.0, g)
    ensures r.0.deleted == s.deleted && r.0.calls == s.calls
  {
    if g in s.queues then (s, s.queues[g]) else (s.(queues := s.queues[g := []]), [])
  }

  /** `add_to_queue`: the song goes to the tail of the guild's queue. */
  function AddToQueue(s: State, g: GuildId, song: Song): (t: State)
    ensures View(t, g) == View(s, g).(queue := Some(QueueOf(s, g) + [song]))
    ensures OthersUnchanged(s, t, g)
    ensures t.deleted == s.deleted && t.calls == s.calls
  {
    var (s1, queue) := GetQueue(s, g);
    s1.(queues := s1.queues[g := queue + [song]])
  }

  /** `join_voice_channel`: reuse a connected client, otherwise connect a new one. */
  function Join(s: State, g: GuildId): (r: (State, Voice))
    ensures r.1.connected && Lookup(r.0.voiceClients, g) == Some(r.1)
    ensures Connected(s, g) ==> r == (s, s.voiceClients[g])
    ensures !Connected(s, g) ==>
              && r.1 == Voice(true, None)
              && View(r.0, g) == View(s, g).(voice := Some(r.1))
              && r.0.calls == s.calls + [Connect(g)]
    ensures OthersUnchanged(s, r.0, g)
    ensures r.0.deleted == s.deleted
  {
    if Connected(s, g) then (s, s.voiceClients[g])
    else
      var client := Voice(true, None);
      (s.(voiceClients := s.voiceClients[g := client], calls := s.calls + [Connect(g)]), client)
  }

  /**
   * `leave_voice_channel`: disconnect if connected, then drop the guild from
   * all three dictionaries. No temporary file is deleted.
   */
  function Leave(s: State, g: GuildId): (t: State)
    ensures View(t, g) == Absent
    ensures OthersUnchanged(s, t, g)
    ensures t.deleted == s.deleted
    ensures t.calls == s.calls + (if Connected(s, g) then [Disconnect(g)] else [])
  {
    var calls := if Connected(s, g) then s.calls + [Disconnect(g)] else s.calls;
    State(s.voiceClients - {g}, s.queues - {g}, s.currentSongs - {g}, s.deleted, calls)
  }

  /**
   * `play`: if the guild has an idle voice client, take the head of its queue,
   * make it the current song and start playing its file; with an empty queue,
   * leave instead. The boolean is true when `voice_client.play` raised because
   * the client is no longer connected; the head has then already been taken.
   */
  function Play(s: State, g: GuildId): (r: (State, bool))
    ensures !Idle(s, g) ==> r == (s, false)
    ensures Idle(s, g) && QueueOf(s, g) == [] ==>
              && !r.1
              && View(r.0, g) == Absent
              && r.0.calls == s.calls + (if Connected(s, g) then [Disconnect(g)] else [])
    ensures Idle(s, g) && QueueOf(s, g) != [] ==>
              var head := QueueOf(s, g)[0];
              && r.1 == !Connected(s, g)
              && Lookup(r.0.queues, g) == Some(QueueOf(s, g)[1..])
              && Lookup(r.0.currentSongs, g) == Some(head)
              && if r.1 then
                   r.0.voiceClients == s.voiceClients && r.0.calls == s.calls
                 else
                   && Lookup(r.0.voiceClients, g) == Some(Voice(true, Some(head.filePath)))
                   && r.0.calls == s.calls + [StartPlayback(g, head.filePath)]
    ensures OthersUnchanged(s, r.0, g)
    ensures r.0.deleted == s.deleted
  {
    if g !in s.voiceClients then (s, false)
    else
      var client := s.voiceClients[g];
      if client.IsPlaying() then (s, false)
      else
        var (s1, queue) := GetQueue(s, g);
        if queue == [] then (Leave(s1, g), false)
        else
          var song := queue[0];
          var s2 := s1.(queues := s1.queues[g := queue[1..]], currentSongs := s1.currentSongs[g := song]);
          if !client.connected then (s2, true)
          else
            (s2.(voiceClients := s2.voiceClients[g := client.(playing := Some(song.filePath))],
                 calls := s2.calls + [StartPlayback(g, song.filePath)]), false)
  }

  /** The current song's file, if the guild has a current song. */
  function CurrentFile(s: State, g: GuildId): seq<Path> {
    if g in s.currentSongs then [s.currentSongs[g].filePath] else []
  }

  /**
   * `_song_finished`, the callback the transport fires when playback ends:
   * remove the current song's file (whatever song is current by then), then
   * `play` the guild. Errors from `os.remove` are swallowed, so the deletion
   * is logged unconditionally.
   */
  function SongFinished(s: State, g: GuildId): (t: State)
    ensures t.deleted == s.deleted + CurrentFile(s, g)
    ensures View(t, g) == View(Play(s, g).0, g) && t.calls == Play(s, g).0.calls
    ensures OthersUnchanged(s, t, g)
  {
    var s1 := s.(deleted := s.deleted + CurrentFile(s, g));
    Play(s1, g).0
  }

  /** `skip`: stop a playing client; the transport then fires the finished callback. */
  function Skip(s: State, g: GuildId): (r: (State, bool))
    ensures r.1 <==> g in s.voiceClients && s.voiceClients[g].IsPlaying()
    ensures !r.1 ==> r.0 == s
    ensures r.1 ==>
              && View(r.0, g) == View(s, g).(voice := Some(s.voiceClients[g].(playing := None)))
              && r.0.calls == s.calls + [StopPlayback(g)]
    ensures OthersUnchanged(s, r.0, g)
    ensures r.0.deleted == s.deleted
  {
    if g !in s.voiceClients then (s, false)
    else
      var client := s.voiceClients[g];
      if !client.IsPlaying() then (s, false)
      else
        (s.(voiceClients := s.voiceClients[g := client.(playing := None)],
            calls := s.calls + [StopPlayback(g)]), true)
  }

  /** The transport reaches the end of the file it plays (it will then fire the finished callback). */
  function PlaybackEnds(s: State, g: GuildId): (t: State)
    ensures g in s.voiceClients ==>
              View(t, g) == View(s, g).(voice := Some(s.voiceClients[g].(playing := None)))
    ensures g !in s.voiceClients ==> t == s
    ensures OthersUnchanged(s, t, g)
    ensures t.deleted == s.deleted && t.calls == s.calls
  {
    if g in s.voiceClients
    then s.(voiceClients := s.voiceClients[g := s.voiceClients[g].(playing := None)])
    else s
  }

  /** The transport loses the guild's voice connection; the client stays in the dictionary. */
  function ConnectionLost(s: State, g: GuildId): (t: State)
    ensures g in s.voiceClients ==> View(t, g) == View(s, g).(voice := Some(Voice(false, None)))
    ensures g !in s.voiceClients ==> t == s
    ensures OthersUnchanged(s, t, g)
    ensures t.deleted == s.deleted && t.calls == s.calls
  {
    if g in s.voiceClients
    then s.(voiceClients := s.voiceClients[g := Voice(false, None)])
    else s
  }
}
