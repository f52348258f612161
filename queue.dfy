/**
 * The per-guild playback queue (queue.go): pending tracks, a cached total length and
 * a repeat mode. `Add`, `Remove`, `Clear` and `RecalculateDuration` leave the cached
 * length equal to the sum of the track lengths; `Skip` and `Next` do not touch it.
 */
module Queues {
  import opened Lavalink
  import opened Format

  /** QueueType is a Go string type: the three constants, or whatever string was stored. */
  type QueueType = string

  const NoRepeat: QueueType := "no_repeat"
  const RepeatTrack: QueueType := "repeat_track"
  const RepeatQueue: QueueType := "repeat_queue"

  predicate IsKnownMode(q: QueueType) {
    q == NoRepeat || q == RepeatTrack || q == RepeatQueue
  }

  /**
   * `QueueType.String`, which `%s` uses whenever a mode is printed. Every string outside
   * the three constants is "unknown", and the three constants get three different names.
   */
  function ModeName(q: QueueType): (s: string)
    ensures s == "unknown" <==> !IsKnownMode(q)
    ensures q == NoRepeat ==> s == "No Repeat"
    ensures q == RepeatTrack ==> s == "Repeat Track"
    ensures q == RepeatQueue ==> s == "Repeat Queue"
  {
    match q
    case "no_repeat" => "No Repeat"
    case "repeat_track" => "Repeat Track"
    case "repeat_queue" => "Repeat Queue"
    case _ => "unknown"
  }

  /** The sum of the track lengths (what `RecalculateDuration` stores). */
  function TotalLength(tracks: seq<Track>): nat {
    if tracks == [] then 0 else TotalLength(tracks[..|tracks| - 1]) + tracks[|tracks| - 1].length
  }

  lemma {:induction false} TotalLengthConcat(a: seq<Track>, b: seq<Track>)
    ensures TotalLength(a + b) == TotalLength(a) + TotalLength(b)
    decreases |b|
  {
    if b == [] {
      assert a + b == a;
    } else {
      var b' := b[..|b| - 1];
      assert (a + b)[..|a + b| - 1] == a + b';
      TotalLengthConcat(a, b');
    }
  }

  /** Taking the front track off removes exactly its length. */
  lemma TotalLengthFront(tracks: seq<Track>)
    requires tracks != []
    ensures TotalLength(tracks) == tracks[0].length + TotalLength(tracks[1..])
  {
    assert tracks == [tracks[0]] + tracks[1..];
    TotalLengthConcat([tracks[0]], tracks[1..]);
    assert [tracks[0]][..0] == [];
  }

  /** The total does not depend on the order: any permutation has the same sum. */
  lemma {:induction false} TotalLengthPermutation(a: seq<Track>, b: seq<Track>)
    requires multiset(a) == multiset(b)
    ensures TotalLength(a) == TotalLength(b)
    decreases |a|
  {
    if a != [] {
      var x := a[|a| - 1];
      var a' := a[..|a| - 1];
      assert a == a' + [x];
      assert x in multiset(b);
      var i :| 0 <= i < |b| && b[i] == x;
      var b' := b[..i] + b[i + 1..];
      assert b == b[..i] + [x] + b[i + 1..];
      calc {
        multiset(a') + multiset{x};
        multiset(a);
        multiset(b);
        multiset(b[..i]) + multiset{x} + multiset(b[i + 1..]);
        multiset(b') + multiset{x};
      }
      assert multiset(a') == multiset(a') + multiset{x} - multiset{x};
      assert multiset(b') == multiset(b') + multiset{x} - multiset{x};
      TotalLengthPermutation(a', b');
      TotalLengthConcat(b[..i] + [x], b[i + 1..]);
      TotalLengthConcat(b[..i], [x]);
      TotalLengthConcat(b[..i], b[i + 1..]);
      assert TotalLength([x]) == x.length by {
        assert [x][..0] == [];
      }
    } else {
      assert |b| == |multiset(b)| == 0;
    }
  }

  /**
   * What a successful `Skip` of `k` tracks does to the cached length: if it was current
   * before, it still counts the `k` removed tracks afterwards, so it is current again only
   * when those tracks have length zero.
   */
  lemma {:induction false} SkipLeavesLengthStale(tracks: seq<Track>, length: nat, k: nat)
    requires length == TotalLength(tracks)
    requires 1 <= k <= |tracks|
    ensures length == TotalLength(tracks[k..]) + TotalLength(tracks[..k])
    ensures length == TotalLength(tracks[k..]) <==> TotalLength(tracks[..k]) == 0
  {
    assert tracks == tracks[..k] + tracks[k..];
    TotalLengthConcat(tracks[..k], tracks[k..]);
  }

  /** A queue's observable state, as a value. */
  datatype QueueState = QueueState(tracks: seq<Track>, length: nat, mode: QueueType) {
    /** The cached length is the true total. */
    predicate LengthIsCurrent() {
      length == TotalLength(tracks)
    }
  }

  /** The queue `GuildManager.Get` creates: no tracks, length 0, NoRepeat. */
  const FreshQueueState: QueueState := QueueState([], 0, NoRepeat)

  class Queue {
    var tracks: seq<Track>
    var length: nat
    var mode: QueueType

    /** The queue built in `GuildManager.Get` (guild.go:29-32). */
    constructor ()
      ensures State() == FreshQueueState
    {
      tracks := [];
      length := 0;
      mode := NoRepeat;
    }

    function State(): QueueState
      reads this
    {
      QueueState(tracks, length, mode)
    }

    /** Recompute the cached length from the tracks. */
    method RecalculateDuration()
      modifies this`length
      ensures tracks == old(tracks) && mode == old(mode)
      ensures State().LengthIsCurrent()
    {
      length := 0;
      var i := 0;
      while i < |tracks|
        invariant 0 <= i <= |tracks|
        invariant length == TotalLength(tracks[..i])
      {
        assert tracks[..i + 1][..i] == tracks[..i];
        length := length + tracks[i].length;
        i := i + 1;
      }
      assert tracks[..i] == tracks;
    }

    /**
     * Shuffle in place: the swaps of `rand.Shuffle` (from the back, each position with a
     * randomly chosen one at or before it). The random choice is left open, so this holds
     * of every order it can produce.
     */
    method Shuffle()
      modifies this
      ensures multiset(tracks) == multiset(old(tracks)) && |tracks| == |old(tracks)|
      ensures length == old(length) && mode == old(mode)
      ensures old(State().LengthIsCurrent()) ==> State().LengthIsCurrent()
    {
      var i := |tracks| - 1;
      while i > 0
        invariant i < |tracks|
        invariant multiset(tracks) == multiset(old(tracks)) && |tracks| == |old(tracks)|
        invariant length == old(length) && mode == old(mode)
      {
        var j :| 0 <= j <= i;
        tracks := tracks[i := tracks[j]][j := tracks[i]];
        i := i - 1;
      }
      TotalLengthPermutation(old(tracks), tracks);
    }

    /** Append at the back, in order, then recompute the length. */
    method Add(added: seq<Track>)
      modifies this
      ensures tracks == old(tracks) + added && mode == old(mode)
      ensures State().LengthIsCurrent()
      ensures length == old(TotalLength(tracks)) + TotalLength(added)
    {
      tracks := tracks + added;
      RecalculateDuration();
      TotalLengthConcat(old(tracks), added);
    }

    /** `Skip(1)`: hand out the front track. */
    method Next() returns (track: Track, ok: bool)
      modifies this
      ensures ok <==> old(tracks) != []
      ensures ok ==> track == old(tracks)[0] && tracks == old(tracks)[1..]
      ensures !ok ==> track == ZeroTrack && tracks == old(tracks)
      ensures length == old(length) && mode == old(mode)
    {
      track, ok := Skip(1);
    }

    /**
     * Drop the first `min(amount, len)` tracks and return the last one dropped.
     * On a non-empty queue an `amount` below 1 would index out of range.
     */
    method Skip(amount: int) returns (track: Track, ok: bool)
      requires tracks != [] ==> amount >= 1
      modifies this
      ensures ok <==> old(tracks) != []
      ensures !ok ==> track == ZeroTrack && tracks == old(tracks)
      ensures ok ==> var k := Min(amount, |old(tracks)|);
        track == old(tracks)[k - 1] && tracks == old(tracks)[k..]
      ensures length == old(length) && mode == old(mode)
    {
      if |tracks| == 0 {
        return ZeroTrack, false;
      }
      var k := amount;
      if k > |tracks| {
        k := |tracks|;
      }
      track, tracks := tracks[k - 1], tracks[k..];
      ok := true;
    }

    /** Remove by zero-based index; an index outside the queue changes nothing. */
    method Remove(index: int) returns (removed: Track, ok: bool)
      modifies this
      ensures ok <==> 0 <= index < |old(tracks)|
      ensures !ok ==> removed == ZeroTrack && State() == old(State())
      ensures ok ==>
        && removed == old(tracks)[index]
        && tracks == old(tracks)[..index] + old(tracks)[index + 1..]
        && State().LengthIsCurrent()
      ensures mode == old(mode)
    {
      if |tracks| == 0 || index < 0 || index >= |tracks| {
        return ZeroTrack, false;
      }
      removed := tracks[index];
      tracks := tracks[..index] + tracks[index + 1..];
      RecalculateDuration();
      ok := true;
    }

    /** Empty the queue; the mode stays. */
    method Clear()
      modifies this
      ensures tracks == [] && length == 0 && mode == old(mode)
      ensures State().LengthIsCurrent()
    {
      tracks := [];
      length := 0;
    }
  }
}
