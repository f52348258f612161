/**
 * The older player generation (music_player.go): one `MusicPlayer` per guild, owning its
 * queue as a slice and keeping the queue's total length up to date step by step, with a
 * looping flag instead of repeat modes. It is modelled on its own: it shares the track
 * and view vocabulary with the current generation but none of its state.
 */
module LegacyPlayer {
  import opened Wrappers
  import opened Lavalink
  import opened Discord
  import opened Format
  import opened Queues
  import BotCore

  /** What `OnTrackEnd` does after the refresh it always starts with. */
  datatype EndDecision =
    | Replay    // play the ended track again
    | PlayNext  // start the queue front
    | Stay      // keep the player, play nothing
    | Leave     // disconnect from voice

  /**
   * The legacy track-end decision. A looping player replays a finished track; a reason
   * that may start the next track starts the queue front if there is one; a player with
   * tracks queued stays unless the track was stopped; a replaced track never leaves.
   * Everything else leaves, in particular a stop with tracks still queued.
   */
  function Decide(looping: bool, reason: EndReason, queued: nat): (r: EndDecision)
    ensures r == Replay <==> looping && reason == Finished
    ensures r == PlayNext <==> !(looping && reason == Finished) && reason.MayStartNext() && queued > 0
    ensures r == Leave <==>
      !(looping && reason == Finished) && reason != Replaced && (queued == 0 || reason == Stopped)
    ensures reason == Replaced ==> r == Stay
  {
    if looping && reason == Finished then Replay
    else if reason.MayStartNext() && queued > 0 then PlayNext
    else if (reason != Stopped && queued > 0) || reason == Replaced then Stay
    else Leave
  }

  /**
   * Where the generations part: a track stopped with tracks still queued makes the legacy
   * player leave, while the current handler, for which a stop may not start the next
   * track, changes nothing (`PlayerHandler.OnTrackEnd`).
   */
  lemma StopWithQueueLeaves(looping: bool, queued: nat)
    requires queued > 0
    ensures Decide(looping, Stopped, queued) == Leave
    ensures !Stopped.MayStartNext()
  {
  }

  /**
   * The state of one guild's legacy player. `playing` is the audio player's track. The
   * source discards the error of `Play`; the methods that play take `playOk`, whether
   * that call went through. A failed call leaves the audio player's track as it was.
   */
  class MusicPlayer {
    const guildID: Snowflake
    var queue: seq<Track>
    var queueDuration: int
    var isLooping: bool
    var playing: Option<Track>

    /** `NewMusicPlayer`: an empty queue, zero duration, not looping, nothing playing. */
    constructor (guildID: Snowflake)
      ensures this.guildID == guildID
      ensures queue == [] && queueDuration == 0 && !isLooping && playing == None
      ensures DurationIsCurrent()
    {
      this.guildID := guildID;
      queue := [];
      queueDuration := 0;
      isLooping := false;
      playing := None;
    }

    /** The bookkeeping the player keeps: the duration is the sum of the queued lengths. */
    predicate DurationIsCurrent()
      reads this
    {
      queueDuration == TotalLength(queue)
    }

    /**
     * `PlayNextInQueue`: take the front track off the queue, subtract its length, play it
     * and refresh the player message. The queue must not be empty (the source indexes
     * its front). The duration bookkeeping is kept. The track is taken off the queue
     * whether or not `Play` goes through (`playOk`).
     */
    method PlayNextInQueue(playOk: bool) returns (actions: seq<Action>)
      requires queue != []
      modifies this
      ensures queue == old(queue)[1..]
      ensures queueDuration == old(queueDuration) - old(queue)[0].length
      ensures playing == if playOk then Some(old(queue)[0]) else old(playing)
      ensures isLooping == old(isLooping)
      ensures old(DurationIsCurrent()) ==> DurationIsCurrent()
      ensures actions == [PlayTrack(old(queue)[0]), RefreshPlayerMessage]
    {
      TotalLengthFront(queue);
      var track := queue[0];
      queue := queue[1..];
      queueDuration := queueDuration - track.length;
      if playOk {
        playing := Some(track);
      }
      actions := [PlayTrack(track), RefreshPlayerMessage];
    }

    /**
     * `Queue`: append the tracks one by one, adding each length to the duration; then,
     * if nothing is playing, start the queue front (which is the first new track only if
     * the queue was empty), otherwise refresh. At least one track must be given (the
     * source reads the first one).
     */
    method Queue(tracks: seq<Track>, playOk: bool) returns (actions: seq<Action>)
      requires |tracks| >= 1
      modifies this
      ensures var all := old(queue) + tracks;
        && (old(playing).None? ==>
              && queue == all[1..]
              && playing == (if playOk then Some(all[0]) else None)
              && queueDuration == old(queueDuration) + TotalLength(tracks) - all[0].length
              && actions == [PlayTrack(all[0]), RefreshPlayerMessage])
        && (old(playing).Some? ==>
              && queue == all
              && playing == old(playing)
              && queueDuration == old(queueDuration) + TotalLength(tracks)
              && actions == [RefreshPlayerMessage])
      ensures isLooping == old(isLooping)
      ensures old(DurationIsCurrent()) ==> DurationIsCurrent()
    {
      for i := 0 to |tracks|
        invariant queue == old(queue) + tracks[..i]
        invariant queueDuration == old(queueDuration) + TotalLength(tracks[..i])
        invariant playing == old(playing) && isLooping == old(isLooping)
      {
        assert tracks[..i + 1] == tracks[..i] + [tracks[i]];
        TotalLengthConcat(tracks[..i], [tracks[i]]);
        assert TotalLength([tracks[i]]) == tracks[i].length by {
          assert [tracks[i]][..0] == [];
        }
        queue := queue + [tracks[i]];
        queueDuration := queueDuration + tracks[i].length;
      }
      assert tracks[..|tracks|] == tracks;
      TotalLengthConcat(old(queue), tracks);
      if playing.None? {
        actions := PlayNextInQueue(playOk);
      } else {
        actions := [RefreshPlayerMessage];
      }
    }

    /**
     * `OnTrackEnd`: refresh, then act on `Decide`. The audio player has already dropped
     * the ended track when the listener runs. Leaving sends a voice disconnect; only when
     * that goes through (`voiceOk`) is the guild's player removed from `registry`. A
     * replay or a next track is the audio player's track only if `Play` goes through
     * (`playOk`).
     */
    method OnTrackEnd(registry: Players, track: Track, reason: EndReason, voiceOk: bool, playOk: bool)
      returns (actions: seq<Action>)
      modifies this, registry
      ensures isLooping == old(isLooping)
      ensures old(DurationIsCurrent()) ==> DurationIsCurrent()
      ensures var d := Decide(old(isLooping), reason, |old(queue)|);
        && (d == Replay ==>
              && queue == old(queue) && queueDuration == old(queueDuration)
              && playing == (if playOk then Some(track) else None)
              && registry.players == old(registry.players)
              && actions == [RefreshPlayerMessage, PlayTrack(track)])
        && (d == PlayNext ==>
              && queue == old(queue)[1..]
              && queueDuration == old(queueDuration) - old(queue)[0].length
              && playing == (if playOk then Some(old(queue)[0]) else None)
              && registry.players == old(registry.players)
              && actions == [RefreshPlayerMessage, PlayTrack(old(queue)[0]), RefreshPlayerMessage])
        && (d == Stay ==>
              && queue == old(queue) && queueDuration == old(queueDuration)
              && playing == None
              && registry.players == old(registry.players)
              && actions == [RefreshPlayerMessage])
        && (d == Leave ==>
              && queue == old(queue) && queueDuration == old(queueDuration)
              && playing == None
              && registry.players == (if voiceOk then old(registry.players) - {guildID} else old(registry.players))
              && actions == [RefreshPlayerMessage, UpdateVoiceState(None)])
    {
      playing := None;
      actions := [RefreshPlayerMessage];
      var decision := Decide(isLooping, reason, |queue|);
      if decision == Replay {
        if playOk {
          playing := Some(track);
        }
        actions := actions + [PlayTrack(track)];
      } else if decision == PlayNext {
        var more := PlayNextInQueue(playOk);
        actions := actions + more;
      } else if decision == Leave {
        actions := actions + [UpdateVoiceState(None)];
        if voiceOk {
          registry.Remove(guildID);
        }
      }
    }

    /**
     * The queue embed of `UpdatePlayerMessage`: the notice first, then the listed tracks
     * from the tenth (or last) down to the first.
     */
    method RenderQueueEmbed() returns (embed: BotCore.QueueEmbed)
      ensures embed == LegacyQueueView(queue, queueDuration)
    {
      var n := |queue|;
      var text := RenderDescending(BotCore.EmptyNotice(n) + BotCore.MoreNotice(n), queue,
                                   Min(ViewLimit, n), BotCore.ViewLine);
      embed := BotCore.QueueEmbed("Queue list (" + Decimal(n) + ")", text,
                                  if n == 0 then None else Some(FormatDuration(queueDuration)));
    }
  }

  /** The `musicPlayers` map: the legacy player of each guild. */
  class Players {
    var players: map<Snowflake, MusicPlayer>

    constructor ()
      ensures players == map[]
    {
      players := map[];
    }

    /** `delete(musicPlayers, id)`: forget that guild's player, keep every other. */
    method Remove(id: Snowflake)
      modifies this
      ensures players == old(players) - {id}
    {
      players := players - {id};
    }
  }

  /** How many tracks the queue embed lists at most. */
  const ViewLimit: nat := BotCore.ViewLimit

  /** Lines `k` down to 1 of a listing, each numbered as in queue order. */
  function DescendingLines(tracks: seq<Track>, k: nat, line: (nat, Track) -> string): (r: seq<string>)
    requires k <= |tracks|
    ensures |r| == k
    ensures forall j :: 0 <= j < k ==> r[j] == line(k - j, tracks[k - 1 - j])
  {
    if k == 0 then [] else [line(k, tracks[k - 1])] + DescendingLines(tracks, k - 1, line)
  }

  /**
   * The descending loop of `UpdatePlayerMessage`: starting from `head`, append the lines
   * of tracks `k - 1` down to 0.
   */
  method RenderDescending(head: string, tracks: seq<Track>, k: nat, line: (nat, Track) -> string)
    returns (text: string)
    requires k <= |tracks|
    ensures text == head + Concat(DescendingLines(tracks, k, line))
  {
    var lines := DescendingLines(tracks, k, line);
    text := head;
    var i := k - 1;
    while i >= 0
      invariant -1 <= i < k
      invariant text == head + Concat(lines[..k - 1 - i])
    {
      var done := k - 1 - i;
      assert lines[done] == line(i + 1, tracks[i]);
      assert lines[..done + 1] == lines[..done] + [lines[done]];
      ConcatSnoc(lines[..done], lines[done]);
      text := text + line(i + 1, tracks[i]);
      i := i - 1;
    }
    assert lines[..k] == lines;
  }

  /**
   * The legacy queue description: the empty notice or the "and other" line first, then
   * the first `min(10, n)` tracks in descending order.
   */
  function LegacyDescription(tracks: seq<Track>): string {
    var n := |tracks|;
    BotCore.EmptyNotice(n) + BotCore.MoreNotice(n) + Concat(DescendingLines(tracks, Min(ViewLimit, n), BotCore.ViewLine))
  }

  /** The legacy queue embed: the same title and duration field as the current one. */
  function LegacyQueueView(tracks: seq<Track>, duration: int): BotCore.QueueEmbed {
    var n := |tracks|;
    BotCore.QueueEmbed("Queue list (" + Decimal(n) + ")", LegacyDescription(tracks),
                       if n == 0 then None else Some(FormatDuration(duration)))
  }

  /**
   * The descending listing holds the lines of the ascending one in reverse: line `j` of
   * one is line `k - 1 - j` of the other, so no line is lost or repeated.
   */
  lemma {:induction false} DescendingReversesListing(tracks: seq<Track>, k: nat, line: (nat, Track) -> string)
    requires k <= |tracks|
    ensures var down := DescendingLines(tracks, k, line);
      var up := NumberedLines(tracks[..k], line);
      && |down| == |up|
      && (forall j :: 0 <= j < k ==> down[j] == up[k - 1 - j])
      && multiset(down) == multiset(up)
    decreases k
  {
    if k > 0 {
      DescendingReversesListing(tracks, k - 1, line);
      NumberedLinesStep(tracks, k - 1, line);
      assert DescendingLines(tracks, k, line) == [line(k, tracks[k - 1])] + DescendingLines(tracks, k - 1, line);
    }
  }

  /**
   * Past ten tracks the legacy description opens with the "and other" line, followed by
   * the tenth track; the current view puts the first track first and the "and other"
   * line last (`BotCore.DescriptionPastTen`).
   */
  lemma LegacyOpensWithMore(tracks: seq<Track>)
    requires |tracks| > ViewLimit
    ensures LegacyDescription(tracks) ==
      BotCore.MoreTracksLine(|tracks| - 10) + BotCore.ViewLine(10, tracks[9])
        + Concat(DescendingLines(tracks, 9, BotCore.ViewLine))
  {
    var n := |tracks|;
    assert Min(ViewLimit, n) == 10;
    assert BotCore.EmptyNotice(n) + BotCore.MoreNotice(n) == BotCore.MoreTracksLine(n - 10);
    DescendingOpens(BotCore.MoreTracksLine(n - 10), tracks, 10, BotCore.ViewLine);
  }

  /** A descending listing of `k >= 1` lines opens with line `k`. */
  lemma DescendingOpens(head: string, tracks: seq<Track>, k: nat, line: (nat, Track) -> string)
    requires 1 <= k <= |tracks|
    ensures head + Concat(DescendingLines(tracks, k, line))
            == head + line(k, tracks[k - 1]) + Concat(DescendingLines(tracks, k - 1, line))
  {
    var first := line(k, tracks[k - 1]);
    var rest := DescendingLines(tracks, k - 1, line);
    assert DescendingLines(tracks, k, line) == [first] + rest;
    ConcatCons(first, rest);
    assert head + (first + Concat(rest)) == head + first + Concat(rest);
  }

  /** Putting a line in front puts its text in front. */
  lemma {:induction false} ConcatCons(first: string, lines: seq<string>)
    ensures Concat([first] + lines) == first + Concat(lines)
    decreases |lines|
  {
    if lines == [] {
      assert [first] + lines == [first];
      assert [first][..0] == [];
    } else {
      var last := lines[|lines| - 1];
      var init := lines[..|lines| - 1];
      assert [first] + lines == ([first] + init) + [last];
      ConcatSnoc([first] + init, last);
      ConcatCons(first, init);
      assert lines == init + [last];
      ConcatSnoc(init, last);
    }
  }
}
