/**
 * Properties of `MusicPlayer` that relate several operations: what happens
 * when operations are repeated or follow one another, the invariant that ties
 * the playing file to the current song, and the fact that songs start
 * playing in the order they were added to the queue.
 */
module PlayerProperties {
  import opened Wrappers
  import opened PlayerState

  /** Leaving twice is leaving once. */
  lemma LeaveIdempotent(s: State, g: GuildId)
    ensures Leave(Leave(s, g), g) == Leave(s, g)
  {
  }

  /**
   * When the finished callback fired by a `leave` (disconnecting stops the
   * playback) runs after `leave_voice_channel` has returned, it finds neither
   * a current song nor a voice client: it removes no file and changes
   * nothing. The files of the current and queued songs then stay on disk.
   */
  lemma FinishedAfterLeaveChangesNothing(s: State, g: GuildId)
    ensures SongFinished(Leave(s, g), g) == Leave(s, g)
  {
  }

  /** While a song plays, the guild's current song is the one whose file is playing. */
  ghost predicate Consistent(s: State) {
    forall g :: g in s.voiceClients && s.voiceClients[g].IsPlaying() ==>
      g in s.currentSongs && s.currentSongs[g].filePath == s.voiceClients[g].playing.value
  }

  /**
   * The normal advance: when the current song has finished and more songs
   * wait, the finished song's file is removed and the next song starts.
   */
  lemma FinishedAdvances(s: State, g: GuildId)
    requires Connected(s, g) && !s.voiceClients[g].IsPlaying()
    requires g in s.currentSongs && QueueOf(s, g) != []
    ensures var t := SongFinished(s, g);
            var next := QueueOf(s, g)[0];
            && t.deleted == s.deleted + [s.currentSongs[g].filePath]
            && t.calls == s.calls + [StartPlayback(g, next.filePath)]
            && View(t, g) == GuildView(Some(Voice(true, Some(next.filePath))), Some(QueueOf(s, g)[1..]), Some(next))
  {
  }

  /**
   * Queue exhaustion: when the last song has finished, its file is removed,
   * the transport is disconnected exactly once and the guild disappears
   * from all three dictionaries.
   */
  lemma FinishedTearsDown(s: State, g: GuildId)
    requires Connected(s, g) && !s.voiceClients[g].IsPlaying()
    requires g in s.currentSongs && QueueOf(s, g) == []
    ensures var t := SongFinished(s, g);
            && t.deleted == s.deleted + [s.currentSongs[g].filePath]
            && t.calls == s.calls + [Disconnect(g)]
            && View(t, g) == Absent
  {
  }

  /**
   * A finished callback that arrives while the guild is playing (another
   * `play` started the next song before the callback ran) removes the file
   * of the song now playing, and changes nothing else.
   */
  lemma FinishedWhilePlayingRemovesPlayingFile(s: State, g: GuildId)
    requires Consistent(s)
    requires g in s.voiceClients && s.voiceClients[g].IsPlaying()
    ensures SongFinished(s, g) == s.(deleted := s.deleted + [s.voiceClients[g].playing.value])
  {
  }

  /**
   * A skip followed by its callback does what the end of the track followed
   * by its callback does, apart from the one logged stop.
   */
  lemma SkipAdvancesLikeTrackEnd(s: State, g: GuildId)
    requires g in s.voiceClients && s.voiceClients[g].IsPlaying()
    ensures var skipped := SongFinished(Skip(s, g).0, g);
            var ended := SongFinished(PlaybackEnds(s, g), g);
            && skipped.voiceClients == ended.voiceClients
            && skipped.queues == ended.queues
            && skipped.currentSongs == ended.currentSongs
            && skipped.deleted == ended.deleted
            && |skipped.calls| == |ended.calls| + 1
            && skipped.calls[|s.calls|] == StopPlayback(g)
            && skipped.calls[..|s.calls|] + skipped.calls[|s.calls| + 1..] == ended.calls
  {
    var u := PlaybackEnds(s, g);
    assert Skip(s, g).0 == u.(calls := u.calls + [StopPlayback(g)]);
    FinishedIgnoresLog(u, g, [StopPlayback(g)]);
    var ended := SongFinished(u, g);
    var skipped := SongFinished(Skip(s, g).0, g);
    assert skipped.calls == s.calls + [StopPlayback(g)] + ended.calls[|s.calls|..];
    assert skipped.calls[..|s.calls|] == s.calls;
    assert skipped.calls[|s.calls| + 1..] == ended.calls[|s.calls|..];
  }

  /** Calls logged before the callback do not influence what the callback does. */
  lemma FinishedIgnoresLog(u: State, g: GuildId, extra: seq<TransportCall>)
    ensures |u.calls| <= |SongFinished(u, g).calls|
    ensures var f := SongFinished(u, g);
            SongFinished(u.(calls := u.calls + extra), g) == f.(calls := u.calls + extra + f.calls[|u.calls|..])
  {
    var d := u.(deleted := u.deleted + CurrentFile(u, g));
    PlayIgnoresLog(d, g, extra);
    assert u.(calls := u.calls + extra).(deleted := d.deleted) == d.(calls := d.calls + extra);
  }

  lemma PlayIgnoresLog(u: State, g: GuildId, extra: seq<TransportCall>)
    ensures |u.calls| <= |Play(u, g).0.calls|
    ensures var p := Play(u, g).0;
            Play(u.(calls := u.calls + extra), g).0 == p.(calls := u.calls + extra + p.calls[|u.calls|..])
  {
    var p := Play(u, g).0;
    PlayCallsOwnGuild(u, g);
    assert p.calls == u.calls + p.calls[|u.calls|..];
  }

  /** The commands and transport events that reach the player. */
  datatype Event =
    | Enqueue(guild: GuildId, song: Song)     // add_to_queue
    | ShowQueue(guild: GuildId)               // get_queue (the queue command)
    | JoinChannel(guild: GuildId)             // join_voice_channel
    | LeaveChannel(guild: GuildId)            // leave_voice_channel
    | PlayNext(guild: GuildId)                // play
    | Finished(guild: GuildId)                // the `after` callback, _song_finished
    | SkipSong(guild: GuildId)                // skip
    | TrackEnds(guild: GuildId)               // the transport reaches the end of the file
    | ConnectionDrops(guild: GuildId)         // the transport loses the connection

  function Step(s: State, e: Event): State {
    match e
    case Enqueue(g, song) => AddToQueue(s, g, song)
    case ShowQueue(g) => GetQueue(s, g).0
    case JoinChannel(g) => Join(s, g).0
    case LeaveChannel(g) => Leave(s, g)
    case PlayNext(g) => Play(s, g).0
    case Finished(g) => SongFinished(s, g)
    case SkipSong(g) => Skip(s, g).0
    case TrackEnds(g) => PlaybackEnds(s, g)
    case ConnectionDrops(g) => ConnectionLost(s, g)
  }

  function Run(s: State, events: seq<Event>): State
    decreases |events|
  {
    if events == [] then s else Run(Step(s, events[0]), events[1..])
  }

  /** Every event keeps the playing file and the current song in agreement. */
  lemma StepPreservesConsistent(s: State, e: Event)
    requires Consistent(s)
    ensures Consistent(Step(s, e))
  {
    var t := Step(s, e);
    forall h | h in t.voiceClients && t.voiceClients[h].IsPlaying()
      ensures h in t.currentSongs && t.currentSongs[h].filePath == t.voiceClients[h].playing.value
    {
      if h != e.guild {
        assert View(t, h) == View(s, h);
      } else if e.Finished? {
        assert View(t, h) == View(Play(s, h).0, h);
      }
    }
  }

  lemma {:induction false} RunPreservesConsistent(s: State, events: seq<Event>)
    requires Consistent(s)
    ensures Consistent(Run(s, events))
    decreases |events|
  {
    if events != [] {
      StepPreservesConsistent(s, events[0]);
      RunPreservesConsistent(Step(s, events[0]), events[1..]);
    }
  }

  /** The files whose playback was started in guild `g`, in call order. */
  function StartedIn(calls: seq<TransportCall>, g: GuildId): seq<Path>
    decreases |calls|
  {
    if calls == [] then []
    else
      var last := calls[|calls| - 1];
      StartedIn(calls[..|calls| - 1], g) + (if last.StartPlayback? && last.guild == g then [last.path] else [])
  }

  function Paths(songs: seq<Song>): seq<Path>
    decreases |songs|
  {
    if songs == [] then [] else [songs[0].filePath] + Paths(songs[1..])
  }

  /**
   * The files of guild `g` in playback order: those already started, then
   * those still waiting in the queue.
   */
  function Order(s: State, g: GuildId): seq<Path> {
    StartedIn(s.calls, g) + Paths(QueueOf(s, g))
  }

  /** The file an event adds to guild `g`'s queue, if any. */
  function AddedBy(e: Event, g: GuildId): seq<Path> {
    if e.Enqueue? && e.guild == g then [e.song.filePath] else []
  }

  function AddedByAll(events: seq<Event>, g: GuildId): seq<Path>
    decreases |events|
  {
    if events == [] then [] else AddedBy(events[0], g) + AddedByAll(events[1..], g)
  }

  /** The guild's voice client, if any, is connected. */
  predicate NeverDisconnected(s: State, g: GuildId) {
    g in s.voiceClients ==> s.voiceClients[g].connected
  }

  /** Events that neither discard guild `g`'s queue nor drop its connection. */
  predicate KeepsOrder(e: Event, g: GuildId) {
    e.guild == g ==> !e.LeaveChannel? && !e.ConnectionDrops?
  }

  lemma {:induction false} StartedInAppend(calls: seq<TransportCall>, more: seq<TransportCall>, g: GuildId)
    ensures StartedIn(calls + more, g) == StartedIn(calls, g) + StartedIn(more, g)
    decreases |more|
  {
    if more == [] {
      assert calls + more == calls;
    } else {
      var init := more[..|more| - 1];
      assert (calls + more)[..|calls + more| - 1] == calls + init;
      StartedInAppend(calls, init, g);
    }
  }

  lemma {:induction false} PathsAppend(songs: seq<Song>, song: Song)
    ensures Paths(songs + [song]) == Paths(songs) + [song.filePath]
    decreases |songs|
  {
    if songs == [] {
      assert Paths([song]) == [song.filePath] + Paths([]);
    } else {
      assert (songs + [song])[1..] == songs[1..] + [song];
      PathsAppend(songs[1..], song);
    }
  }

  /** Calls made for other guilds do not start anything in `g`. */
  lemma StartedInOthers(calls: seq<TransportCall>, more: seq<TransportCall>, g: GuildId)
    requires forall i :: 0 <= i < |more| ==> more[i].guild != g
    ensures StartedIn(calls + more, g) == StartedIn(calls, g)
  {
    StartedInAppend(calls, more, g);
    StartedInNone(more, g);
  }

  lemma {:induction false} StartedInNone(calls: seq<TransportCall>, g: GuildId)
    requires forall i :: 0 <= i < |calls| ==> calls[i].guild != g
    ensures StartedIn(calls, g) == []
    decreases |calls|
  {
    if calls != [] {
      StartedInNone(calls[..|calls| - 1], g);
    }
  }

  /** `t` extends `s`'s call log with calls for guild `g` only. */
  ghost predicate LogsOwnGuild(s: State, t: State, g: GuildId) {
    && |s.calls| <= |t.calls|
    && t.calls[..|s.calls|] == s.calls
    && forall i :: |s.calls| <= i < |t.calls| ==> t.calls[i].guild == g
  }

  /** Each event only calls the transport for its own guild. */
  lemma StepCallsOwnGuild(s: State, e: Event)
    ensures LogsOwnGuild(s, Step(s, e), e.guild)
  {
    match e
    case PlayNext(g) =>
      PlayCallsOwnGuild(s, g);
    case Finished(g) =>
      PlayCallsOwnGuild(s, g);
      assert SongFinished(s, g).calls == Play(s, g).0.calls;
    case _ =>
  }

  lemma PlayCallsOwnGuild(s: State, g: GuildId)
    ensures LogsOwnGuild(s, Play(s, g).0, g)
  {
  }

  /** Each event leaves every other guild's entries alone. */
  lemma StepOthersUnchanged(s: State, e: Event)
    ensures OthersUnchanged(s, Step(s, e), e.guild)
  {
    match e
    case Enqueue(g, song) =>
    case ShowQueue(g) =>
    case JoinChannel(g) =>
    case LeaveChannel(g) =>
    case PlayNext(g) =>
    case Finished(g) =>
    case SkipSong(g) =>
    case TrackEnds(g) =>
    case ConnectionDrops(g) =>
  }

  /** A step for guild `h` that logs only `h`'s calls keeps the order of every other guild. */
  lemma OtherGuildKeepsOrder(s: State, t: State, h: GuildId, g: GuildId)
    requires h != g && OthersUnchanged(s, t, h) && LogsOwnGuild(s, t, h)
    ensures View(t, g) == View(s, g)
    ensures Order(t, g) == Order(s, g)
  {
    var more := t.calls[|s.calls|..];
    assert t.calls == s.calls + more;
    StartedInOthers(s.calls, more, g);
    assert QueueOf(t, g) == QueueOf(s, g) by {
      assert View(t, g).queue == View(s, g).queue;
    }
  }

  lemma StepKeepsOrder(s: State, e: Event, g: GuildId)
    requires NeverDisconnected(s, g) && KeepsOrder(e, g)
    ensures NeverDisconnected(Step(s, e), g)
    ensures Order(Step(s, e), g) == Order(s, g) + AddedBy(e, g)
  {
    if e.guild != g {
      StepOthersUnchanged(s, e);
      StepCallsOwnGuild(s, e);
      OtherGuildKeepsOrder(s, Step(s, e), e.guild, g);
      assert View(Step(s, e), g).voice == View(s, g).voice;
    } else {
      match e
      case Enqueue(_, song) => EnqueueKeepsOrder(s, g, song);
      case PlayNext(_) => PlayKeepsOrder(s, g);
      case Finished(_) => FinishedKeepsOrder(s, g);
      case JoinChannel(_) => CallsOnlyKeepOrder(s, Join(s, g).0, g);
      case SkipSong(_) => CallsOnlyKeepOrder(s, Skip(s, g).0, g);
      case ShowQueue(_) =>
      case TrackEnds(_) =>
    }
  }

  /** Adding a song appends its file to the guild's order. */
  lemma EnqueueKeepsOrder(s: State, g: GuildId, song: Song)
    ensures Order(AddToQueue(s, g, song), g) == Order(s, g) + [song.filePath]
  {
    PathsAppend(QueueOf(s, g), song);
  }

  /** A step that only logs calls other than StartPlayback for `g`, and keeps `g`'s queue, keeps its order. */
  lemma CallsOnlyKeepOrder(s: State, t: State, g: GuildId)
    requires QueueOf(t, g) == QueueOf(s, g)
    requires |s.calls| <= |t.calls| && t.calls[..|s.calls|] == s.calls
    requires forall i :: |s.calls| <= i < |t.calls| ==> !t.calls[i].StartPlayback?
    ensures Order(t, g) == Order(s, g)
  {
    var more := t.calls[|s.calls|..];
    assert s.calls + more == t.calls;
    StartedInAppend(s.calls, more, g);
    StartedInNoStart(more, g);
  }

  lemma {:induction false} StartedInNoStart(calls: seq<TransportCall>, g: GuildId)
    requires forall i :: 0 <= i < |calls| ==> !calls[i].StartPlayback?
    ensures StartedIn(calls, g) == []
    decreases |calls|
  {
    if calls != [] {
      StartedInNoStart(calls[..|calls| - 1], g);
    }
  }

  lemma FinishedKeepsOrder(s: State, g: GuildId)
    requires NeverDisconnected(s, g)
    ensures NeverDisconnected(SongFinished(s, g), g)
    ensures Order(SongFinished(s, g), g) == Order(s, g)
  {
    var t := SongFinished(s, g);
    var u := Play(s, g).0;
    PlayKeepsOrder(s, g);
    assert View(t, g) == View(u, g);
    assert QueueOf(t, g) == QueueOf(u, g) by {
      assert View(t, g).queue == View(u, g).queue;
    }
    assert View(t, g).voice == View(u, g).voice;
  }

  lemma PlayKeepsOrder(s: State, g: GuildId)
    requires NeverDisconnected(s, g)
    ensures NeverDisconnected(Play(s, g).0, g)
    ensures Order(Play(s, g).0, g) == Order(s, g)
  {
    var t := Play(s, g).0;
    var queue := QueueOf(s, g);
    if Idle(s, g) {
      StartedInAppend(s.calls, t.calls[|s.calls|..], g);
      assert s.calls + t.calls[|s.calls|..] == t.calls;
      if queue != [] {
        assert Paths(queue) == [queue[0].filePath] + Paths(queue[1..]);
      }
    }
  }

  /**
   * As long as guild `g` is neither left nor disconnected, the files started
   * so far followed by the files still queued are the files that were there
   * before followed by the files added since, in the order they were added.
   */
  lemma {:induction false} RunKeepsOrder(s: State, events: seq<Event>, g: GuildId)
    requires NeverDisconnected(s, g)
    requires forall i :: 0 <= i < |events| ==> KeepsOrder(events[i], g)
    ensures NeverDisconnected(Run(s, events), g)
    ensures Order(Run(s, events), g) == Order(s, g) + AddedByAll(events, g)
    decreases |events|
  {
    if events != [] {
      var next := Step(s, events[0]);
      StepKeepsOrder(s, events[0], g);
      RunKeepsOrder(next, events[1..], g);
      RunOrderLink(s, next, Run(next, events[1..]), AddedBy(events[0], g), AddedByAll(events[1..], g), g);
    }
  }

  /** Chaining two order facts through an intermediate state. */
  lemma RunOrderLink(s: State, next: State, last: State, first: seq<Path>, rest: seq<Path>, g: GuildId)
    requires Order(next, g) == Order(s, g) + first
    requires Order(last, g) == Order(next, g) + rest
    ensures Order(last, g) == Order(s, g) + (first + rest)
  {
  }

  /**
   * Insertion order is playback order: starting from a fresh player, the
   * files whose playback has been started in guild `g` are a prefix of the
   * files added to its queue, as long as the guild is neither left nor
   * disconnected.
   */
  lemma PlaybackFollowsInsertionOrder(events: seq<Event>, g: GuildId)
    requires forall i :: 0 <= i < |events| ==> KeepsOrder(events[i], g)
    ensures StartedIn(Run(Initial, events).calls, g) <= AddedByAll(events, g)
  {
    RunKeepsOrder(Initial, events, g);
    var t := Run(Initial, events);
    assert Order(Initial, g) == [];
    assert [] + AddedByAll(events, g) == AddedByAll(events, g);
    PrefixOfConcat(StartedIn(t.calls, g), Paths(QueueOf(t, g)), AddedByAll(events, g));
  }

  /** A sequence that starts a concatenation is a prefix of it. */
  lemma PrefixOfConcat(front: seq<Path>, back: seq<Path>, whole: seq<Path>)
    requires front + back == whole
    ensures front <= whole
  {
    assert whole[..|front|] == front;
  }

  /**
   * `a` is `b` with some elements left out and the rest in their order
   * (matched greedily from the end).
   */
  predicate Subsequence(a: seq<Path>, b: seq<Path>)
    decreases |b|
  {
    if a == [] then true
    else if b == [] then false
    else if a[|a| - 1] == b[|b| - 1] then Subsequence(a[..|a| - 1], b[..|b| - 1])
    else Subsequence(a, b[..|b| - 1])
  }

  lemma {:induction false} SubsequenceRefl(a: seq<Path>)
    ensures Subsequence(a, a)
    decreases |a|
  {
    if a != [] {
      SubsequenceRefl(a[..|a| - 1]);
    }
  }

  /** An element added after `b` does not spoil a subsequence of `b`. */
  lemma {:induction false} SubsequenceExtend(a: seq<Path>, b: seq<Path>, x: Path)
    requires Subsequence(a, b)
    ensures Subsequence(a, b + [x])
    decreases |b|, 1
  {
    assert (b + [x])[..|b|] == b;
    if a != [] && a[|a| - 1] == x {
      SubsequenceDropLast(a, b);
    }
  }

  lemma {:induction false} SubsequenceDropLast(a: seq<Path>, b: seq<Path>)
    requires a != [] && Subsequence(a, b)
    ensures Subsequence(a[..|a| - 1], b)
    decreases |b|, 0
  {
    var init := b[..|b| - 1];
    assert b == init + [b[|b| - 1]];
    if a[|a| - 1] == b[|b| - 1] {
      SubsequenceExtend(a[..|a| - 1], init, b[|b| - 1]);
    } else {
      SubsequenceDropLast(a, init);
      SubsequenceExtend(a[..|a| - 1], init, b[|b| - 1]);
    }
  }

  lemma {:induction false} SubsequenceTrans(a: seq<Path>, b: seq<Path>, c: seq<Path>)
    requires Subsequence(a, b) && Subsequence(b, c)
    ensures Subsequence(a, c)
    decreases |c|
  {
    if a != [] {
      var init := c[..|c| - 1];
      assert c == init + [c[|c| - 1]];
      if b[|b| - 1] == c[|c| - 1] {
        if a[|a| - 1] == b[|b| - 1] {
          SubsequenceTrans(a[..|a| - 1], b[..|b| - 1], init);
        } else {
          SubsequenceTrans(a, b[..|b| - 1], init);
        }
      } else {
        SubsequenceTrans(a, b, init);
        SubsequenceExtend(a, init, c[|c| - 1]);
      }
    }
  }

  /** The same tail appended to both sides keeps a subsequence. */
  lemma {:induction false} SubsequenceAppend(a: seq<Path>, b: seq<Path>, tail: seq<Path>)
    requires Subsequence(a, b)
    ensures Subsequence(a + tail, b + tail)
    decreases |tail|
  {
    if tail == [] {
      assert a + tail == a && b + tail == b;
    } else {
      var init := tail[..|tail| - 1];
      var x := tail[|tail| - 1];
      SubsequenceAppend(a, b, init);
      SubsequenceSnoc(a + init, b + init, x);
      assert a + init + [x] == a + tail;
      assert b + init + [x] == b + tail;
    }
  }

  lemma SubsequenceSnoc(a: seq<Path>, b: seq<Path>, x: Path)
    requires Subsequence(a, b)
    ensures Subsequence(a + [x], b + [x])
  {
    assert (a + [x])[..|a|] == a;
    assert (b + [x])[..|b|] == b;
  }

  lemma {:induction false} SubsequencePrefix(a: seq<Path>, rest: seq<Path>)
    ensures Subsequence(a, a + rest)
    decreases |rest|
  {
    if rest == [] {
      assert a + rest == a;
      SubsequenceRefl(a);
    } else {
      var init := rest[..|rest| - 1];
      SubsequencePrefix(a, init);
      SubsequenceExtend(a, a + init, rest[|rest| - 1]);
      assert a + init + [rest[|rest| - 1]] == a + rest;
    }
  }

  /** Leaving out one element in the middle. */
  lemma SubsequenceSkipOne(front: seq<Path>, x: Path, back: seq<Path>)
    ensures Subsequence(front + back, front + [x] + back)
  {
    SubsequencePrefix(front, [x]);
    SubsequenceAppend(front, front + [x], back);
  }

  /**
   * `play` keeps a guild's order, except that a client that is no longer
   * connected loses the song taken off the queue when `voice_client.play`
   * raises.
   */
  lemma PlayShrinksOrder(s: State, g: GuildId)
    ensures Subsequence(Order(Play(s, g).0, g), Order(s, g))
  {
    var t := Play(s, g).0;
    if !Idle(s, g) || QueueOf(s, g) == [] || Connected(s, g) {
      PlayConnectedKeepsOrder(s, t, g);
      SubsequenceRefl(Order(s, g));
    } else {
      var queue := QueueOf(s, g);
      PlayRaisedDropsHead(s, t, g);
      SubsequenceSkipOne(StartedIn(s.calls, g), queue[0].filePath, Paths(queue[1..]));
    }
  }

  lemma PlayConnectedKeepsOrder(s: State, t: State, g: GuildId)
    requires t == Play(s, g).0
    requires !Idle(s, g) || QueueOf(s, g) == [] || Connected(s, g)
    ensures Order(t, g) == Order(s, g)
  {
    if Idle(s, g) && QueueOf(s, g) == [] {
      assert QueueOf(t, g) == [] by {
        assert View(t, g).queue == None;
      }
      CallsOnlyKeepOrder(s, t, g);
    } else if Idle(s, g) {
      PlayKeepsOrder(s, g);
    }
  }

  /** A failed `voice_client.play` has taken the head off the queue and started nothing. */
  lemma PlayRaisedDropsHead(s: State, t: State, g: GuildId)
    requires t == Play(s, g).0
    requires Idle(s, g) && QueueOf(s, g) != [] && !Connected(s, g)
    ensures var queue := QueueOf(s, g);
            && Order(t, g) == StartedIn(s.calls, g) + Paths(queue[1..])
            && Order(s, g) == StartedIn(s.calls, g) + [queue[0].filePath] + Paths(queue[1..])
  {
    var queue := QueueOf(s, g);
    assert t.calls == s.calls;
    assert QueueOf(t, g) == queue[1..];
    assert Paths(queue) == [queue[0].filePath] + Paths(queue[1..]);
  }

  /** `leave` drops the guild's queued files and starts nothing. */
  lemma LeaveShrinksOrder(s: State, g: GuildId)
    ensures Subsequence(Order(Leave(s, g), g), Order(s, g))
  {
    var t := Leave(s, g);
    var more := t.calls[|s.calls|..];
    assert s.calls + more == t.calls;
    StartedInAppend(s.calls, more, g);
    StartedInNoStart(more, g);
    assert QueueOf(t, g) == [];
    assert Order(t, g) == StartedIn(s.calls, g) + [] == StartedIn(s.calls, g);
    SubsequencePrefix(StartedIn(s.calls, g), Paths(QueueOf(s, g)));
  }

  /** The callback leaves the order that `play` would leave. */
  lemma FinishedShrinksOrder(s: State, g: GuildId)
    ensures Subsequence(Order(SongFinished(s, g), g), Order(s, g))
  {
    var t := SongFinished(s, g);
    var u := Play(s, g).0;
    PlayShrinksOrder(s, g);
    assert QueueOf(t, g) == QueueOf(u, g) by {
      assert View(t, g).queue == View(u, g).queue;
    }
    assert Order(t, g) == Order(u, g);
  }

  /** The events of guild `g` that neither start playback nor drop files. */
  predicate Quiet(e: Event) {
    !e.PlayNext? && !e.Finished? && !e.LeaveChannel?
  }

  lemma QuietStepKeepsOrder(s: State, e: Event, g: GuildId)
    requires e.guild == g && Quiet(e)
    ensures Order(Step(s, e), g) == Order(s, g) + AddedBy(e, g)
  {
    match e
    case Enqueue(_, song) => EnqueueKeepsOrder(s, g, song);
    case JoinChannel(_) => CallsOnlyKeepOrder(s, Join(s, g).0, g);
    case SkipSong(_) => CallsOnlyKeepOrder(s, Skip(s, g).0, g);
    case ShowQueue(_) =>
    case TrackEnds(_) =>
    case ConnectionDrops(_) =>
      var t := ConnectionLost(s, g);
      assert QueueOf(t, g) == QueueOf(s, g) by {
        assert View(t, g).queue == View(s, g).queue;
      }
  }

  /** Any event, for any guild, keeps guild `g`'s order apart from leaving files out. */
  lemma StepShrinksOrder(s: State, e: Event, g: GuildId)
    ensures Subsequence(Order(Step(s, e), g), Order(s, g) + AddedBy(e, g))
  {
    var t := Step(s, e);
    if e.guild != g {
      StepOthersUnchanged(s, e);
      StepCallsOwnGuild(s, e);
      OtherGuildKeepsOrder(s, t, e.guild, g);
      assert Order(s, g) + AddedBy(e, g) == Order(t, g);
      SubsequenceRefl(Order(t, g));
    } else if Quiet(e) {
      QuietStepKeepsOrder(s, e, g);
      SubsequenceRefl(Order(t, g));
    } else {
      assert Order(s, g) + AddedBy(e, g) == Order(s, g);
      if e.PlayNext? {
        PlayShrinksOrder(s, g);
      } else if e.Finished? {
        FinishedShrinksOrder(s, g);
      } else {
        LeaveShrinksOrder(s, g);
      }
    }
  }

  lemma {:induction false} RunShrinksOrder(s: State, events: seq<Event>, g: GuildId)
    ensures Subsequence(Order(Run(s, events), g), Order(s, g) + AddedByAll(events, g))
    decreases |events|
  {
    if events == [] {
      assert Order(s, g) + AddedByAll(events, g) == Order(s, g);
      SubsequenceRefl(Order(s, g));
    } else {
      var next := Step(s, events[0]);
      StepShrinksOrder(s, events[0], g);
      RunShrinksOrder(next, events[1..], g);
      SubsequenceLink(Order(Run(next, events[1..]), g), Order(next, g), Order(s, g), AddedBy(events[0], g), AddedByAll(events[1..], g));
    }
  }

  /** Chaining two steps of `RunShrinksOrder` through the intermediate order. */
  lemma SubsequenceLink(last: seq<Path>, next: seq<Path>, start: seq<Path>, first: seq<Path>, rest: seq<Path>)
    requires Subsequence(next, start + first)
    requires Subsequence(last, next + rest)
    ensures Subsequence(last, start + (first + rest))
  {
    SubsequenceAppend(next, start + first, rest);
    assert start + first + rest == start + (first + rest);
    SubsequenceTrans(last, next + rest, start + (first + rest));
  }

  /**
   * Whatever happens, including leaving and lost connections: starting from
   * a fresh player, the files whose playback was started in guild `g` are
   * some of the files added to its queue, in the order they were added. No
   * file is played twice and none overtakes an earlier one; files may be
   * skipped over (a leave drops the queue, a failed `play` drops the head).
   */
  lemma PlaybackNeverReorders(events: seq<Event>, g: GuildId)
    ensures Subsequence(StartedIn(Run(Initial, events).calls, g), AddedByAll(events, g))
  {
    var t := Run(Initial, events);
    RunShrinksOrder(Initial, events, g);
    assert Order(Initial, g) == [];
    assert [] + AddedByAll(events, g) == AddedByAll(events, g);
    SubsequencePrefix(StartedIn(t.calls, g), Paths(QueueOf(t, g)));
    SubsequenceTrans(StartedIn(t.calls, g), Order(t, g), AddedByAll(events, g));
  }

  /** The events of a session in one guild, see `TwoSongSession`. */
  function TwoSongEvents(g: GuildId, a: Song, b: Song): seq<Event> {
    [JoinChannel(g), Enqueue(g, a), PlayNext(g), Enqueue(g, b), PlayNext(g),
     TrackEnds(g), Finished(g), SkipSong(g), Finished(g)]
  }

  /** The first song is requested and starts; the second is queued behind it. */
  lemma TwoSongSessionStart(g: GuildId, a: Song, b: Song)
    ensures Run(Initial, TwoSongEvents(g, a, b)[..5])
            == State(map[g := Voice(true, Some(a.filePath))], map[g := [b]], map[g := a], [],
                     [Connect(g), StartPlayback(g, a.filePath)])
  {
    var events := TwoSongEvents(g, a, b);
    var s0 := State(map[g := Voice(true, None)], map[], map[], [], [Connect(g)]);
    var s1 := State(map[g := Voice(true, None)], map[g := [a]], map[], [], [Connect(g)]);
    var s2 := State(map[g := Voice(true, Some(a.filePath))], map[g := []], map[g := a], [],
                    [Connect(g), StartPlayback(g, a.filePath)]);
    var s3 := s2.(queues := map[g := [b]]);
    assert Step(Initial, events[0]) == s0;
    assert Step(s0, events[1]) == s1 by {
      assert [] + [a] == [a];
    }
    assert Step(s1, events[2]) == s2;
    assert Step(s2, events[3]) == s3 by {
      assert [] + [b] == [b];
    }
    assert Step(s3, events[4]) == s3;
    RunPrefix(Initial, events, [s0, s1, s2, s3, s3]);
  }

  /** The first song runs out and the second starts; then the second is skipped and the player leaves. */
  lemma TwoSongSessionEnd(g: GuildId, a: Song, b: Song)
    ensures var s3 := State(map[g := Voice(true, Some(a.filePath))], map[g := [b]], map[g := a], [],
                            [Connect(g), StartPlayback(g, a.filePath)]);
            Run(s3, TwoSongEvents(g, a, b)[5..])
            == State(map[], map[], map[], [a.filePath, b.filePath],
                     [Connect(g), StartPlayback(g, a.filePath), StartPlayback(g, b.filePath),
                      StopPlayback(g), Disconnect(g)])
  {
    var events := TwoSongEvents(g, a, b)[5..];
    assert events == [TrackEnds(g), Finished(g), SkipSong(g), Finished(g)];
    var s3 := State(map[g := Voice(true, Some(a.filePath))], map[g := [b]], map[g := a], [],
                    [Connect(g), StartPlayback(g, a.filePath)]);
    var s4 := s3.(voiceClients := map[g := Voice(true, None)]);
    var s5 := State(map[g := Voice(true, Some(b.filePath))], map[g := []], map[g := b], [a.filePath],
                    [Connect(g), StartPlayback(g, a.filePath), StartPlayback(g, b.filePath)]);
    var s6 := s5.(voiceClients := map[g := Voice(true, None)], calls := s5.calls + [StopPlayback(g)]);
    var s7 := State(map[], map[], map[], [a.filePath, b.filePath], s6.calls + [Disconnect(g)]);
    assert Step(s3, events[0]) == s4;
    assert Step(s4, events[1]) == s5;
    assert Step(s5, events[2]) == s6;
    assert Step(s6, events[3]) == s7;
    RunPrefix(s3, events, [s4, s5, s6, s7]);
    assert events[..4] == events;
  }

  /** Running events one by one through the given intermediate states. */
  lemma {:induction false} RunPrefix(s: State, events: seq<Event>, states: seq<State>)
    requires 0 < |states| <= |events|
    requires Step(s, events[0]) == states[0]
    requires forall i :: 0 < i < |states| ==> Step(states[i - 1], events[i]) == states[i]
    ensures Run(s, events[..|states|]) == states[|states| - 1]
    decreases |states|
  {
    var n := |states|;
    assert events[..n][0] == events[0];
    assert events[..n][1..] == events[1..][..n - 1];
    if n == 1 {
      assert Run(states[0], events[1..][..0]) == states[0];
    } else {
      forall i | 0 < i < n - 1 ensures Step(states[1..][i - 1], events[1..][i]) == states[1..][i] {
        assert Step(states[i], events[i + 1]) == states[i + 1];
      }
      RunPrefix(states[0], events[1..], states[1..]);
    }
  }

  /**
   * A session in one guild: two songs requested, the first plays to its end,
   * the second is skipped. Each file is removed once its song has finished,
   * the second song starts only after the first, and the player leaves the
   * channel when the queue is exhausted.
   */
  lemma TwoSongSession(g: GuildId, a: Song, b: Song)
    ensures Run(Initial, TwoSongEvents(g, a, b))
            == State(map[], map[], map[], [a.filePath, b.filePath],
                     [Connect(g), StartPlayback(g, a.filePath), StartPlayback(g, b.filePath),
                      StopPlayback(g), Disconnect(g)])
  {
    var events := TwoSongEvents(g, a, b);
    TwoSongSessionStart(g, a, b);
    TwoSongSessionEnd(g, a, b);
    RunSplit(Initial, events[..5], events[5..]);
    assert events[..5] + events[5..] == events;
  }

  /** Running two event sequences one after the other. */
  lemma {:induction false} RunSplit(s: State, first: seq<Event>, rest: seq<Event>)
    ensures Run(s, first + rest) == Run(Run(s, first), rest)
    decreases |first|
  {
    if first == [] {
      assert first + rest == rest;
    } else {
      assert (first + rest)[1..] == first[1..] + rest;
      RunSplit(Step(s, first[0]), first[1..], rest);
    }
  }
}
