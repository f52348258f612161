/**
 * The slash-command handlers (command_handler.go). Each one answers with one reply text
 * and issues its outbound calls in order; the queue handlers go through
 * `GuildManager.GetQueue`, which never comes back empty-handed, so their "No player
 * found" branch for a missing queue cannot be taken. A refresh of the player message
 * (`updatePlayerMessage`) first looks the guild up with `GetGuildPlayer`, which is its
 * whole effect on the registry; the refresh itself is recorded as an action and
 * rendered by `BotCore.UpdatePlayerMessage`.
 */
module Commands {
  import opened Wrappers
  import opened Lavalink
  import opened Discord
  import opened Format
  import opened Queues
  import opened Guilds
  import BotCore

  /** The reply text of a handler and the calls it issued, in order. */
  datatype Response = Response(reply: string, actions: seq<Action>)

  const NoPlayer: string := "No player found"
  const NoTracks: string := "No tracks in queue"

  /** "Error while <doing>: `<error>`", the reply for a failed player update. */
  function ErrorReply(doing: string, err: string): string {
    "Error while " + doing + ": `" + err + "`"
  }

  /** `shuffle`: the guild's queue becomes some reordering of itself. */
  method Shuffle(gm: GuildManager, id: Snowflake, stored: StoredGuild) returns (r: Response)
    requires gm.Valid()
    modifies gm, gm.QueueOf(id)
    ensures gm.KeepsOthers(id)
    ensures gm.PointersOf(id, stored) == old(gm.PointersOf(id, stored))
    ensures id in gm.guilds
    ensures var before, after := old(gm.QueueStateOf(id)), gm.QueueStateOf(id);
      && multiset(after.tracks) == multiset(before.tracks)
      && after.length == before.length && after.mode == before.mode
    ensures r == Response("Queue shuffled", [RefreshPlayerMessage])
  {
    var queue := gm.GetQueue(id, stored);
    label Found:
    queue.Shuffle();
    gm.OwnChangeKeepsOthers@Found(id);
    var _ := gm.GetGuildPlayer(id, stored);
    r := Response("Queue shuffled", [RefreshPlayerMessage]);
  }

  /** `volume`: one volume update on an existing player; the level is echoed back. */
  function Volume(player: Option<PlayerView>, level: int, updateError: Option<string>): (r: Response)
    ensures player.None? ==> r == Response(NoPlayer, [])
    ensures player.Some? ==> r.actions == [SetVolume(level)]
    ensures player.Some? && updateError.Some? ==> r.reply == ErrorReply("setting volume", updateError.value)
    ensures player.Some? && updateError.None? ==> r.reply == "Volume set to `" + IntString(level) + "`"
  {
    if player.None? then Response(NoPlayer, [])
    else if updateError.Some? then Response(ErrorReply("setting volume", updateError.value), [SetVolume(level)])
    else Response("Volume set to `" + IntString(level) + "`", [SetVolume(level)])
  }

  /** The units the `seek` command offers, in milliseconds. */
  predicate IsSeekUnit(unit: int) {
    unit == Millisecond || unit == Second || unit == Minute || unit == Hour
  }

  /**
   * `seek`: the target is `position` times `unit`, and `unit` is one millisecond when the
   * option is absent. The reply shows the target as "HH:MM:SS".
   */
  function Seek(player: Option<PlayerView>, position: int, unit: Option<int>, updateError: Option<string>): (r: Response)
    ensures player.None? ==> r == Response(NoPlayer, [])
    ensures player.Some? ==> r.actions == [SeekTo(position * unit.GetOr(Millisecond))]
    ensures player.Some? && updateError.Some? ==> r.reply == ErrorReply("seeking", updateError.value)
    ensures player.Some? && updateError.None? ==>
      r.reply == "Seeked to `" + FormatDuration(position * unit.GetOr(Millisecond)) + "`"
  {
    if player.None? then Response(NoPlayer, [])
    else
      var target := position * unit.GetOr(1);
      if updateError.Some? then Response(ErrorReply("seeking", updateError.value), [SeekTo(target)])
      else Response("Seeked to `" + FormatDuration(target) + "`", [SeekTo(target)])
  }

  /**
   * A seek to a non-negative position in any offered unit is shown as the clock of the
   * target the player was sent, rounded down to the second; in seconds, minutes or hours
   * nothing is rounded away.
   */
  lemma SeekReplyShowsTarget(position: nat, unit: int)
    requires IsSeekUnit(unit)
    ensures var target := position * unit;
      var r := Seek(Some(PlayerView(None, false, 0)), position, Some(unit), None);
      && r.actions == [SeekTo(target)]
      && r.reply == "Seeked to `" + FormatDuration(target) + "`"
      && ShowsClock(FormatDuration(target), target - target % Second)
      && (unit != Millisecond ==> target % Second == 0)
  {
    var target := position * unit;
    if unit == Millisecond {
      assert target == position;
    } else {
      var seconds := if unit == Second then position else if unit == Minute then position * 60 else position * 3600;
      assert target == seconds * 1000;
      assert target % Second == 0;
    }
    FormatDurationReadsBack(target);
  }

  /**
   * `skip`: `amount` defaults to 1. With a player and a non-empty queue, the first
   * `min(amount, len)` tracks leave the queue and the last of them replaces the playing
   * track; the cached length is left as it was. The guild is looked up before the player
   * is checked, so it exists afterwards either way.
   */
  method Skip(gm: GuildManager, id: Snowflake, stored: StoredGuild, player: Option<PlayerView>,
              amount: Option<int>, updateError: Option<string>) returns (r: Response)
    requires player.Some? && gm.QueueStateOf(id).tracks != [] ==> amount.GetOr(1) >= 1
    requires gm.Valid()
    modifies gm, gm.QueueOf(id)
    ensures gm.KeepsOthers(id)
    ensures gm.PointersOf(id, stored) == old(gm.PointersOf(id, stored))
    ensures id in gm.guilds
    ensures var before, after := old(gm.QueueStateOf(id)), gm.QueueStateOf(id);
      if player.None? then r == Response(NoPlayer, []) && after == before
      else if before.tracks == [] then r == Response(NoTracks, []) && after == before
      else
        var k := Min(amount.GetOr(1), |before.tracks|);
        && after == before.(tracks := before.tracks[k..])
        && var play := PlayTrack(before.tracks[k - 1]);
        && r == (if updateError.Some? then Response(ErrorReply("skipping track", updateError.value), [play])
                 else Response("Skipped track", [play, RefreshPlayerMessage]))
  {
    var queue := gm.GetQueue(id, stored);
    if player.None? {
      return Response(NoPlayer, []);
    }
    label Found:
    var track, ok := queue.Skip(amount.GetOr(1));
    gm.OwnChangeKeepsOthers@Found(id);
    if !ok {
      return Response(NoTracks, []);
    }
    if updateError.Some? {
      return Response(ErrorReply("skipping track", updateError.value), [PlayTrack(track)]);
    }
    var _ := gm.GetGuildPlayer(id, stored);
    r := Response("Skipped track", [PlayTrack(track), RefreshPlayerMessage]);
  }

  /**
   * `repeat`: whatever string arrives becomes the mode, and the cached length is
   * recomputed. The reply prints the mode's name, "unknown" for a string outside the
   * three modes.
   */
  method RepeatType(gm: GuildManager, id: Snowflake, stored: StoredGuild, mode: string) returns (r: Response)
    requires gm.Valid()
    modifies gm, gm.QueueOf(id)
    ensures gm.KeepsOthers(id)
    ensures gm.PointersOf(id, stored) == old(gm.PointersOf(id, stored))
    ensures id in gm.guilds
    ensures var before, after := old(gm.QueueStateOf(id)), gm.QueueStateOf(id);
      && after == QueueState(before.tracks, TotalLength(before.tracks), mode)
      && after.LengthIsCurrent()
    ensures r == Response("Repeat mode set to `" + ModeName(mode) + "`", [RefreshPlayerMessage])
  {
    var queue := gm.GetQueue(id, stored);
    label Found:
    queue.mode := mode;
    queue.RecalculateDuration();
    gm.OwnChangeKeepsOthers@Found(id);
    var _ := gm.GetGuildPlayer(id, stored);
    r := Response("Repeat mode set to `" + ModeName(queue.mode) + "`", [RefreshPlayerMessage]);
  }

  /** `clear-queue`: no tracks, length 0, the mode kept. */
  method ClearQueue(gm: GuildManager, id: Snowflake, stored: StoredGuild) returns (r: Response)
    requires gm.Valid()
    modifies gm, gm.QueueOf(id)
    ensures gm.KeepsOthers(id)
    ensures gm.PointersOf(id, stored) == old(gm.PointersOf(id, stored))
    ensures id in gm.guilds
    ensures gm.QueueStateOf(id) == QueueState([], 0, old(gm.QueueStateOf(id)).mode)
    ensures r == Response("Queue cleared", [RefreshPlayerMessage])
  {
    var queue := gm.GetQueue(id, stored);
    label Found:
    queue.Clear();
    gm.OwnChangeKeepsOthers@Found(id);
    var _ := gm.GetGuildPlayer(id, stored);
    r := Response("Queue cleared", [RefreshPlayerMessage]);
  }

  /**
   * `remove`: the user counts from 1, the queue from 0. An id in 1..len removes that
   * track and recomputes the length; any other id changes nothing.
   */
  method RemoveQueue(gm: GuildManager, id: Snowflake, stored: StoredGuild, trackId: int) returns (r: Response)
    requires gm.Valid()
    modifies gm, gm.QueueOf(id)
    ensures gm.KeepsOthers(id)
    ensures gm.PointersOf(id, stored) == old(gm.PointersOf(id, stored))
    ensures id in gm.guilds
    ensures var before, after := old(gm.QueueStateOf(id)), gm.QueueStateOf(id);
      if 1 <= trackId <= |before.tracks| then
        var removed := before.tracks[trackId - 1];
        var rest := before.tracks[..trackId - 1] + before.tracks[trackId..];
        && after == QueueState(rest, TotalLength(rest), before.mode)
        && r == Response("Removed [" + removed.title + "](" + removed.uri + ")", [RefreshPlayerMessage])
      else
        after == before && r == Response("Can't remove track", [])
  {
    var queue := gm.GetQueue(id, stored);
    label Found:
    var removed, ok := queue.Remove(trackId - 1);
    gm.OwnChangeKeepsOthers@Found(id);
    if !ok {
      return Response("Can't remove track", []);
    }
    var _ := gm.GetGuildPlayer(id, stored);
    r := Response("Removed [" + removed.title + "](" + removed.uri + ")", [RefreshPlayerMessage]);
  }

  /** One line of the `queue` listing: "<n>. [`<title>`](<<uri>>)". */
  function ListingLine(n: nat, t: Track): string {
    Decimal(n) + ". [`" + t.title + "`](<" + t.uri + ">)\n"
  }

  /** The `queue` listing's loop: one line per track, numbered from 1, in queue order. */
  method QueueListing(tracks: seq<Track>) returns (text: string)
    ensures text == Concat(NumberedLines(tracks, ListingLine))
  {
    text := "";
    for i := 0 to |tracks|
      invariant text == Concat(NumberedLines(tracks[..i], ListingLine))
    {
      NumberedLinesStep(tracks, i, ListingLine);
      ConcatSnoc(NumberedLines(tracks[..i], ListingLine), ListingLine(i + 1, tracks[i]));
      text := text + ListingLine(i + 1, tracks[i]);
    }
    assert tracks[..|tracks|] == tracks;
  }

  /** `queue`: "No tracks in queue", or the mode's name followed by the listing. Nothing changes. */
  method ShowQueue(gm: GuildManager, id: Snowflake, stored: StoredGuild) returns (r: Response)
    requires gm.Valid()
    modifies gm
    ensures gm.KeepsOthers(id)
    ensures gm.PointersOf(id, stored) == old(gm.PointersOf(id, stored))
    ensures id in gm.guilds && gm.QueueStateOf(id) == old(gm.QueueStateOf(id))
    ensures var q := old(gm.QueueStateOf(id));
      && r.actions == []
      && (q.tracks == [] ==> r.reply == NoTracks)
      && (q.tracks != [] ==>
            r.reply == "Queue `" + ModeName(q.mode) + "`:\n" + Concat(NumberedLines(q.tracks, ListingLine)))
  {
    var queue := gm.GetQueue(id, stored);
    if |queue.tracks| == 0 {
      return Response(NoTracks, []);
    }
    var listing := QueueListing(queue.tracks);
    r := Response("Queue `" + ModeName(queue.mode) + "`:\n" + listing, []);
  }

  /**
   * `pause`: a toggle. The update asks for the opposite of the current paused flag and,
   * once it succeeds, the reply names the new state.
   */
  method Pause(gm: GuildManager, id: Snowflake, stored: StoredGuild, player: Option<PlayerView>,
               updateError: Option<string>) returns (r: Response)
    requires gm.Valid()
    modifies gm
    ensures gm.KeepsOthers(id)
    ensures gm.PointersOf(id, stored) == old(gm.PointersOf(id, stored))
    ensures gm.QueueStateOf(id) == old(gm.QueueStateOf(id))
    ensures player.None? || updateError.Some? ==> gm.guilds == old(gm.guilds)
    ensures player.None? ==> r == Response(NoPlayer, [])
    ensures player.Some? ==>
      var toggle := SetPaused(!player.value.paused);
      if updateError.Some? then r == Response(ErrorReply("pausing", updateError.value), [toggle])
      else
        && id in gm.guilds
        && r == Response("Player is now " + (if !player.value.paused then "paused" else "playing"),
                         [toggle, RefreshPlayerMessage])
  {
    if player.None? {
      return Response(NoPlayer, []);
    }
    var paused := !player.value.paused;
    if updateError.Some? {
      return Response(ErrorReply("pausing", updateError.value), [SetPaused(paused)]);
    }
    var status := "playing";
    if paused {
      status := "paused";
    }
    var _ := gm.GetGuildPlayer(id, stored);
    r := Response("Player is now " + status, [SetPaused(paused), RefreshPlayerMessage]);
  }

  /** `stop`: the player is sent a null track; the queue is left alone. */
  method Stop(gm: GuildManager, id: Snowflake, stored: StoredGuild, player: Option<PlayerView>,
              updateError: Option<string>) returns (r: Response)
    requires gm.Valid()
    modifies gm
    ensures gm.KeepsOthers(id)
    ensures gm.PointersOf(id, stored) == old(gm.PointersOf(id, stored))
    ensures gm.QueueStateOf(id) == old(gm.QueueStateOf(id))
    ensures player.None? || updateError.Some? ==> gm.guilds == old(gm.guilds)
    ensures player.None? ==> r == Response(NoPlayer, [])
    ensures player.Some? && updateError.Some? ==> r == Response(ErrorReply("stopping", updateError.value), [StopTrack])
    ensures player.Some? && updateError.None? ==>
      id in gm.guilds && r == Response("Player stopped", [StopTrack, RefreshPlayerMessage])
  {
    if player.None? {
      return Response(NoPlayer, []);
    }
    if updateError.Some? {
      return Response(ErrorReply("stopping", updateError.value), [StopTrack]);
    }
    var _ := gm.GetGuildPlayer(id, stored);
    r := Response("Player stopped", [StopTrack, RefreshPlayerMessage]);
  }

  /** `disconnect`: leave the voice channel; `voiceOk` is whether the gateway accepted it. */
  method Disconnect(gm: GuildManager, id: Snowflake, stored: StoredGuild, player: Option<PlayerView>,
                    voiceOk: bool) returns (r: Response)
    requires gm.Valid()
    modifies gm
    ensures gm.KeepsOthers(id)
    ensures gm.PointersOf(id, stored) == old(gm.PointersOf(id, stored))
    ensures gm.QueueStateOf(id) == old(gm.QueueStateOf(id))
    ensures player.None? || !voiceOk ==> gm.guilds == old(gm.guilds)
    ensures player.None? ==> r == Response(NoPlayer, [])
    ensures player.Some? && !voiceOk ==> r == Response("Error while disconnecting", [UpdateVoiceState(None)])
    ensures player.Some? && voiceOk ==>
      id in gm.guilds && r == Response("Player disconnected", [UpdateVoiceState(None), RefreshPlayerMessage])
  {
    if player.None? {
      return Response(NoPlayer, []);
    }
    if !voiceOk {
      return Response("Error while disconnecting", [UpdateVoiceState(None)]);
    }
    var _ := gm.GetGuildPlayer(id, stored);
    r := Response("Player disconnected", [UpdateVoiceState(None), RefreshPlayerMessage]);
  }

  /** `now-playing`: the playing track with its position and length as clocks. */
  function NowPlaying(player: Option<PlayerView>): (r: Response)
    ensures r.actions == []
    ensures player.None? ==> r.reply == NoPlayer
    ensures player.Some? && player.value.track.None? ==> r.reply == "No track found"
    ensures player.Some? && player.value.track.Some? ==>
      var t := player.value.track.value;
      r.reply == "Now playing: [`" + t.title + "`](<" + t.uri + ">)\n\n " +
                 FormatDuration(player.value.position) + " / " + FormatDuration(t.length)
  {
    if player.None? then Response(NoPlayer, [])
    else if player.value.track.None? then Response("No track found", [])
    else
      var t := player.value.track.value;
      Response("Now playing: [`" + t.title + "`](<" + t.uri + ">)\n\n " +
               FormatDuration(player.value.position) + " / " + FormatDuration(t.length), [])
  }

  /**
   * The two clocks of the `now-playing` reply read back as the position and the track
   * length, each cut down to whole seconds.
   */
  lemma NowPlayingShowsProgress(t: Track, paused: bool, position: nat)
    ensures var r := NowPlaying(Some(PlayerView(Some(t), paused, position)));
      var shown, total := FormatDuration(position), FormatDuration(t.length);
      && r.reply == "Now playing: [`" + t.title + "`](<" + t.uri + ">)\n\n " + shown + " / " + total
      && ShowsClock(shown, position - position % Second)
      && ShowsClock(total, t.length - t.length % Second)
  {
    FormatDurationReadsBack(position);
    FormatDurationReadsBack(t.length);
  }

  /**
   * `setup`: make the channel the command was used in the guild's player channel. The
   * reply says whether a new player message was created (`BotCore.CreatePlayerMessage`);
   * an unreadable stored row reads as "already a player".
   */
  method Setup(gm: GuildManager, id: Snowflake, row: Option<StoredGuild>, channel: Snowflake, message: Snowflake)
    returns (r: Response, saved: Option<StoredGuild>)
    requires gm.Valid()
    modifies gm, gm.PlayerOf(id)
    ensures gm.KeepsOthers(id)
    ensures gm.QueueStateOf(id) == old(gm.QueueStateOf(id))
    ensures row.Some? && row.value.playerChannelID != Some(channel) ==>
      && r == Response("Player created", [CreateMessage(channel), RefreshPlayerMessage])
      && saved == Some(StoredGuild(Some(channel), Some(message)))
      && gm.PointersOf(id, row.value) == StoredGuild(Some(channel), Some(message))
    ensures row.None? || row.value.playerChannelID == Some(channel) ==>
      && r == Response("This channel was already a player!", [])
      && saved == row
      && gm.guilds == old(gm.guilds)
      && unchanged(gm.PlayerOf(id))
  {
    var created, actions;
    created, saved, actions := BotCore.CreatePlayerMessage(gm, id, row, channel, message);
    if created {
      r := Response("Player created", actions);
    } else {
      r := Response("This channel was already a player!", actions);
    }
  }
}
