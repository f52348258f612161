/**
 * Discord-side identifiers and the outbound calls the bot makes to Discord and to
 * the audio-node player. Calls are recorded as values, in the order they are issued.
 */
module Discord {
  import opened Wrappers
  import opened Lavalink

  /** A Discord id (snowflake.ID). */
  type Snowflake = nat

  /**
   * A `*snowflake.ID` as handed out by the gateway cache or an event: two boxes
   * holding the same id are still different pointers.
   */
  class IdBox {
    const id: Snowflake

    constructor (id: Snowflake)
      ensures this.id == id
    {
      this.id := id;
    }
  }

  /** One outbound call. */
  datatype Action =
    | PlayTrack(track: Track)                       // player.Update(WithTrack(track))
    | StopTrack                                     // player.Update(WithNullTrack())
    | SetPaused(paused: bool)                       // player.Update(WithPaused(..))
    | SetVolume(level: int)                         // player.Update(WithVolume(..))
    | SeekTo(position: int)                         // player.Update(WithPosition(..))
    | LoadTracks(query: string)                     // node.LoadTracks(ctx, query)
    | UpdateVoiceState(voiceChannel: Option<Snowflake>)  // join a channel, or leave with None
    | ForwardVoiceState(voiceChannel: Option<Snowflake>) // Lavalink.OnVoiceStateUpdate
    | RefreshPlayerMessage                          // updatePlayerMessage(guild)
    | CreateMessage(channel: Snowflake)             // Rest().CreateMessage
    | DeleteMessage(channel: Snowflake, message: Snowflake)
    | DeleteMessageLater(channel: Snowflake, message: Snowflake) // goroutine: sleep 5 s, delete
}
