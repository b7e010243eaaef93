/**
 * `MusicPlayer`: the per-guild playback state machine, as a class whose
 * methods update its three dictionaries in place. The voice transport's own
 * events (the end of a file, a dropped connection) are methods too, so that a
 * caller can drive the player through every state the transport can produce;
 * `SongFinished` is the transport's `after` callback, invoked explicitly.
 *
 * Every method is proved to leave the player in the state that the
 * corresponding function of `PlayerState` computes from the old state.
 */
module Player {
  import opened Wrappers
  import opened PlayerState

  class MusicPlayer {
    var voiceClients: map<GuildId, Voice>
    var queues: map<GuildId, seq<Song>>
    var currentSongs: map<GuildId, Song>
    ghost var deleted: seq<Path>
    ghost var calls: seq<TransportCall>

    ghost function Snapshot(): State
      reads this
    {
      State(voiceClients, queues, currentSongs, deleted, calls)
    }

    constructor ()
      ensures Snapshot() == Initial
    {
      voiceClients, queues, currentSongs := map[], map[], map[];
      deleted, calls := [], [];
    }

    method GetQueue(g: GuildId) returns (queue: seq<Song>)
      modifies this
      ensures (Snapshot(), queue) == PlayerState.GetQueue(old(Snapshot()), g)
    {
      if g !in queues {
        queues := queues[g := []];
      }
      queue := queues[g];
    }

    method AddToQueue(g: GuildId, song: Song)
      modifies this
      ensures Snapshot() == PlayerState.AddToQueue(old(Snapshot()), g, song)
    {
      var queue := GetQueue(g);
      queues := queues[g := queue + [song]];
    }

    method JoinVoiceChannel(g: GuildId) returns (client: Voice)
      modifies this
      ensures (Snapshot(), client) == PlayerState.Join(old(Snapshot()), g)
    {
      if g in voiceClients && voiceClients[g].connected {
        return voiceClients[g];
      }
      client := Voice(true, None);
      calls := calls + [Connect(g)];
      voiceClients := voiceClients[g := client];
    }

    method LeaveVoiceChannel(g: GuildId)
      modifies this
      ensures Snapshot() == PlayerState.Leave(old(Snapshot()), g)
    {
      if g in voiceClients {
        if voiceClients[g].connected {
          calls := calls + [Disconnect(g)];
        }
        voiceClients := voiceClients - {g};
      }
      if g in queues {
        queues := queues - {g};
      }
      if g in currentSongs {
        currentSongs := currentSongs - {g};
      }
    }

    /** `raised` is true when `voice_client.play` raised because the client was not connected. */
    method Play(g: GuildId) returns (raised: bool)
      modifies this
      ensures (Snapshot(), raised) == PlayerState.Play(old(Snapshot()), g)
    {
      if g !in voiceClients {
        return false;
      }
      var client := voiceClients[g];
      if client.IsPlaying() {
        return false;
      }
      var queue := GetQueue(g);
      if queue == [] {
        LeaveVoiceChannel(g);
        return false;
      }
      var song := queue[0];
      queues := queues[g := queue[1..]];
      currentSongs := currentSongs[g := song];
      if !client.connected {
        return true;
      }
      voiceClients := voiceClients[g := client.(playing := Some(song.filePath))];
      calls := calls + [StartPlayback(g, song.filePath)];
      raised := false;
    }

    method SongFinished(g: GuildId)
      modifies this
      ensures Snapshot() == PlayerState.SongFinished(old(Snapshot()), g)
    {
      if g in currentSongs {
        deleted := deleted + [currentSongs[g].filePath];
      }
      var _ := Play(g);
    }

    method Skip(g: GuildId) returns (skipped: bool)
      modifies this
      ensures (Snapshot(), skipped) == PlayerState.Skip(old(Snapshot()), g)
    {
      if g !in voiceClients {
        return false;
      }
      var client := voiceClients[g];
      if !client.IsPlaying() {
        return false;
      }
      voiceClients := voiceClients[g := client.(playing := None)];
      calls := calls + [StopPlayback(g)];
      skipped := true;
    }

    /** Transport event: the file being played has run out. */
    method PlaybackEnds(g: GuildId)
      modifies this
      ensures Snapshot() == PlayerState.PlaybackEnds(old(Snapshot()), g)
    {
      if g in voiceClients {
        voiceClients := voiceClients[g := voiceClients[g].(playing := None)];
      }
    }

    /** Transport event: the voice connection was lost. */
    method ConnectionLost(g: GuildId)
      modifies this
      ensures Snapshot() == PlayerState.ConnectionLost(old(Snapshot()), g)
    {
      if g in voiceClients {
        voiceClients := voiceClients[g := Voice(false, None)];
      }
    }
  }
}
