/**
 * Auto-advance on track end (player_handler.go `onTrackEnd`). When the end reason allows
 * a next track, the repeat mode decides it: NoRepeat pops the queue front, RepeatTrack
 * replays the ended track from the start, RepeatQueue re-queues the ended track at the
 * back and pops the front. With no next track the bot leaves the voice channel.
 */
module PlayerHandler {
  import opened Wrappers
  import opened Lavalink
  import opened Discord
  import opened Queues
  import opened Guilds

  /** The track to start, if any, and the queue left behind. */
  datatype Advance = Advance(next: Option<Track>, queue: seq<Track>)

  /** The ended track with its position reset to the start. */
  function Rewound(t: Track): Track {
    t.(position := 0)
  }

  /** One natural track end, decided by the repeat mode. */
  function TrackEndStep(mode: QueueType, ended: Track, queue: seq<Track>): (r: Advance)
    ensures mode == NoRepeat ==>
      && (r.next.Some? <==> queue != [])
      && (queue != [] ==> r.next == Some(queue[0]) && r.queue == queue[1..])
      && (queue == [] ==> r.queue == [])
    ensures mode == RepeatTrack ==> r == Advance(Some(Rewound(ended)), queue)
    ensures mode == RepeatQueue ==>
      && r.next.Some?
      && [r.next.value] + r.queue == queue + [Rewound(ended)]
    ensures !IsKnownMode(mode) ==> r == Advance(None, queue)
  {
    if mode == NoRepeat then
      if queue == [] then Advance(None, queue) else Advance(Some(queue[0]), queue[1..])
    else if mode == RepeatTrack then
      Advance(Some(Rewound(ended)), queue)
    else if mode == RepeatQueue then
      var requeued := queue + [Rewound(ended)];
      assert requeued == [requeued[0]] + requeued[1..];
      Advance(Some(requeued[0]), requeued[1..])
    else
      Advance(None, queue)
  }

  /**
   * The track-end callback. A reason that may not start the next track leaves the
   * registry alone. Otherwise the guild's queue advances as `TrackEndStep` says; a next
   * track is handed to the player in exactly one update (whose error is only logged, so
   * the queue change stands), and no next track means a refresh and a voice disconnect.
   * Only the RepeatQueue branch recomputes the cached length, and it does so before
   * popping the front, so the length still counts the started track.
   */
  method OnTrackEnd(gm: GuildManager, guildID: Snowflake, stored: StoredGuild, ended: Track, reason: EndReason)
    returns (actions: seq<Action>)
    requires gm.Valid()
    modifies gm, gm.QueueOf(guildID)
    ensures gm.KeepsOthers(guildID)
    ensures gm.PointersOf(guildID, stored) == old(gm.PointersOf(guildID, stored))
    ensures !reason.MayStartNext() ==>
      && actions == []
      && gm.guilds == old(gm.guilds)
      && gm.QueueStateOf(guildID) == old(gm.QueueStateOf(guildID))
    ensures reason.MayStartNext() ==>
      var before := old(gm.QueueStateOf(guildID));
      var step := TrackEndStep(before.mode, ended, before.tracks);
      && guildID in gm.guilds
      && gm.QueueStateOf(guildID).tracks == step.queue
      && gm.QueueStateOf(guildID).mode == before.mode
      && gm.QueueStateOf(guildID).length ==
           (if before.mode == RepeatQueue then TotalLength(before.tracks + [Rewound(ended)]) else before.length)
      && actions == (if step.next.Some? then [PlayTrack(step.next.value)]
                     else [RefreshPlayerMessage, UpdateVoiceState(None)])
  {
    if !reason.MayStartNext() {
      return [];
    }
    var queue := gm.GetQueue(guildID, stored);
    label Found:
    var track := Rewound(ended);
    var next: Track, ok := ZeroTrack, false;
    if queue.mode == NoRepeat {
      next, ok := queue.Next();
    } else if queue.mode == RepeatTrack {
      next, ok := track, true;
    } else if queue.mode == RepeatQueue {
      queue.Add([track]);
      next, ok := queue.Next();
    }
    gm.OwnChangeKeepsOthers@Found(guildID);
    if !ok {
      return [RefreshPlayerMessage, UpdateVoiceState(None)];
    }
    actions := [PlayTrack(next)];
  }

  /**
   * `n` natural track ends in a row with no commands in between, each one ending the
   * track the previous one started; stops early once nothing is left to play.
   */
  function RunTrackEnds(mode: QueueType, playing: Track, queue: seq<Track>, n: nat): Advance
    decreases n
  {
    if n == 0 then Advance(Some(playing), queue)
    else
      var step := TrackEndStep(mode, playing, queue);
      if step.next.None? then step else RunTrackEnds(mode, step.next.value, step.queue, n - 1)
  }

  /** Every track is at its start, as loaded tracks are. */
  predicate AllRewound(tracks: seq<Track>) {
    forall i :: 0 <= i < |tracks| ==> tracks[i].position == 0
  }

  /**
   * RepeatQueue turns the cycle "playing track, then the queue" by one place per track
   * end: after `n` ends (up to one full turn) the cycle is rotated by `n`, so no track is
   * lost or duplicated and the bot never disconnects.
   */
  lemma {:induction false} RepeatQueueRotates(playing: Track, queue: seq<Track>, n: nat)
    requires AllRewound([playing] + queue)
    requires n <= |queue| + 1
    ensures var cycle := [playing] + queue;
      var r := RunTrackEnds(RepeatQueue, playing, queue, n);
      && r.next.Some?
      && [r.next.value] + r.queue == cycle[n..] + cycle[..n]
      && multiset([r.next.value] + r.queue) == multiset(cycle)
    decreases n
  {
    var cycle := [playing] + queue;
    if n == 0 {
      assert cycle[0..] + cycle[..0] == cycle;
    } else {
      var step := TrackEndStep(RepeatQueue, playing, queue);
      assert cycle[0] == playing;
      assert Rewound(playing) == playing;
      var turned := [step.next.value] + step.queue;
      assert turned == cycle[1..] + [cycle[0]];
      assert AllRewound(turned) by {
        forall i | 0 <= i < |turned|
          ensures turned[i].position == 0
        {
          if i < |turned| - 1 {
            assert turned[i] == cycle[i + 1];
          } else {
            assert turned[i] == cycle[0];
          }
        }
      }
      RepeatQueueRotates(step.next.value, step.queue, n - 1);
      RotateByOneMore(cycle, n);
    }
    assert cycle == cycle[..n] + cycle[n..];
  }

  /** Rotating by one and then by `n - 1` is rotating by `n`. */
  lemma RotateByOneMore(cycle: seq<Track>, n: nat)
    requires 1 <= n <= |cycle|
    ensures var turned := cycle[1..] + [cycle[0]];
      turned[n - 1..] + turned[..n - 1] == cycle[n..] + cycle[..n]
  {
    var turned := cycle[1..] + [cycle[0]];
    assert turned[n - 1..] == cycle[n..] + [cycle[0]];
    assert turned[..n - 1] == cycle[1..n];
    assert cycle[..n] == [cycle[0]] + cycle[1..n];
  }

  /** After one full turn under RepeatQueue the same track plays again over the same queue. */
  lemma RepeatQueueFullTurn(playing: Track, queue: seq<Track>)
    requires AllRewound([playing] + queue)
    ensures RunTrackEnds(RepeatQueue, playing, queue, |queue| + 1) == Advance(Some(playing), queue)
  {
    var n := |queue| + 1;
    var cycle := [playing] + queue;
    RepeatQueueRotates(playing, queue, n);
    assert cycle[n..] + cycle[..n] == cycle;
    var r := RunTrackEnds(RepeatQueue, playing, queue, n);
    assert [r.next.value] + r.queue == [playing] + queue;
    assert r.next.value == ([r.next.value] + r.queue)[0];
    assert r.queue == ([r.next.value] + r.queue)[1..];
  }

  /** RepeatTrack replays the same track, from the start, for as long as the mode stays. */
  lemma {:induction false} RepeatTrackReplays(playing: Track, queue: seq<Track>, n: nat)
    requires n >= 1
    ensures RunTrackEnds(RepeatTrack, playing, queue, n) == Advance(Some(Rewound(playing)), queue)
    decreases n
  {
    if n > 1 {
      RepeatTrackReplays(Rewound(playing), queue, n - 1);
      assert Rewound(Rewound(playing)) == Rewound(playing);
    }
  }

  /**
   * NoRepeat plays the queue in order: after `n` ends the `n`-th queued track plays over
   * the rest, and one end after the last queued track there is nothing to play, which
   * is when the bot disconnects.
   */
  lemma {:induction false} NoRepeatDrains(playing: Track, queue: seq<Track>, n: nat)
    requires 1 <= n <= |queue| + 1
    ensures var r := RunTrackEnds(NoRepeat, playing, queue, n);
      && (n <= |queue| ==> r == Advance(Some(queue[n - 1]), queue[n..]))
      && (n == |queue| + 1 ==> r == Advance(None, []))
    decreases n
  {
    if n > 1 {
      NoRepeatDrains(queue[0], queue[1..], n - 1);
      if n <= |queue| {
        assert queue[1..][n - 2] == queue[n - 1];
        assert queue[1..][n - 1..] == queue[n..];
      }
    }
  }
}
