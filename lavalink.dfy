/**
 * The audio-node (Lavalink) types the bot consumes. Only their shape is modelled:
 * loading, streaming and player updates happen outside the model.
 */
module Lavalink {
  import opened Wrappers

  /** Durations are milliseconds (lavalink.Duration). */
  const Millisecond: nat := 1
  const Second: nat := 1000
  const Minute: nat := 60000
  const Hour: nat := 3600000

  /** A playable item. `position` is the playback offset the track carries. */
  datatype Track = Track(
    encoded: string,
    title: string,
    uri: string,
    length: nat,
    position: int,
    artworkUrl: Option<string>)

  /** Go's zero value `lavalink.Track{}`. */
  const ZeroTrack: Track := Track("", "", "", 0, 0, None)

  /**
   * What the bot reads back from an audio-node player: `Track()` (nil when idle),
   * `Paused()` and `Position()`.
   */
  datatype PlayerView = PlayerView(track: Option<Track>, paused: bool, position: int)

  /** Why a track stopped, as the audio node reports it. */
  datatype EndReason = Finished | LoadFailed | Stopped | Replaced | Cleanup {

    /** The protocol lets the next track start only after a natural finish or a failed load. */
    predicate MayStartNext() {
      this == Finished || this == LoadFailed
    }
  }

  /** The five load-result kinds of `LoadTracks`. */
  datatype LoadResult =
    | TrackLoaded(track: Track)
    | SearchLoaded(results: seq<Track>)
    | PlaylistLoaded(name: string, tracks: seq<Track>)
    | EmptyLoaded
    | ErrorLoaded(message: string)

  /** The prefix `lavalink.SearchTypeYouTube.Apply` puts in front of a search query. */
  const YouTubeSearchPrefix: string := "ytsearch:"
}
