/**
 * The guild registry (guild.go): one `Guild` per guild id, holding its queue and the
 * pointers to the dedicated player message. `Get` creates a guild on first use;
 * `Delete` forgets it. The map is the only thing either of them changes.
 */
module Guilds {
  import opened Wrappers
  import opened Discord
  import opened Queues
  import Format

  /** The persisted row's player pointers; `Get` copies them into a new guild. */
  datatype StoredGuild = StoredGuild(playerChannelID: Option<Snowflake>, playerMessageID: Option<Snowflake>)

  class GuildPlayer {
    var channelID: Option<Snowflake>
    var messageID: Option<Snowflake>

    constructor (channelID: Option<Snowflake>, messageID: Option<Snowflake>)
      ensures this.channelID == channelID && this.messageID == messageID
    {
      this.channelID := channelID;
      this.messageID := messageID;
    }

    /**
     * Whether `channel` is the player channel. The source compares the two ids' decimal
     * strings; since decimal printing is injective this is plain id equality.
     */
    function IsPlayerChannel(channel: Snowflake): (r: bool)
      reads this
      ensures r <==> channelID == Some(channel)
    {
      channelID.Some? && Format.Decimal(channelID.value) == Format.Decimal(channel)
    }

    /** Whether `message` is the player message, compared the same way. */
    function IsPlayerMessage(message: Snowflake): (r: bool)
      reads this
      ensures r <==> messageID == Some(message)
    {
      messageID.Some? && Format.Decimal(messageID.value) == Format.Decimal(message)
    }
  }

  class Guild {
    const player: GuildPlayer
    const queue: Queue

    constructor (player: GuildPlayer, queue: Queue)
      ensures this.player == player && this.queue == queue
    {
      this.player := player;
      this.queue := queue;
    }
  }

  class GuildManager {
    var guilds: map<Snowflake, Guild>

    /** The empty registry `newBot` starts with. */
    constructor ()
      ensures guilds == map[] && Valid()
    {
      guilds := map[];
    }

    /**
     * `Get` allocates a new queue and a new player for every guild it creates, so no two
     * guilds share either object: changing one guild's queue leaves every other alone.
     */
    ghost predicate Valid()
      reads this
    {
      forall a, b :: a in guilds && b in guilds && a != b ==>
        guilds[a].queue != guilds[b].queue && guilds[a].player != guilds[b].player
    }

    /** The queue and player objects of every stored guild. */
    ghost function Objects(): set<object>
      reads this
    {
      (set o | o in guilds :: guilds[o].queue as object) + (set o | o in guilds :: guilds[o].player as object)
    }

    /**
     * From the old state to this one the registry stays valid, gains at most guild `id`,
     * and keeps every other guild: the same entry, showing the same queue and pointers.
     */
    twostate predicate KeepsOthers(id: Snowflake)
      reads this, Objects()
    {
      && Valid()
      && old(guilds.Keys) <= guilds.Keys <= old(guilds.Keys) + {id}
      && forall o :: o in old(guilds) && o != id ==>
           && guilds[o] == old(guilds[o])
           && guilds[o].queue.State() == old(guilds[o].queue.State())
           && guilds[o].player.channelID == old(guilds[o].player.channelID)
           && guilds[o].player.messageID == old(guilds[o].player.messageID)
    }

    /** The queue object of guild `id`, if the registry holds one. */
    ghost function QueueOf(id: Snowflake): set<object>
      reads this
    {
      if id in guilds then {guilds[id].queue} else {}
    }

    /** The player-pointer object of guild `id`, if the registry holds one. */
    ghost function PlayerOf(id: Snowflake): set<object>
      reads this
    {
      if id in guilds then {guilds[id].player} else {}
    }

    /**
     * The queue state guild `id` shows to whoever asks for it: the stored queue's, or
     * that of the fresh queue `Get` would create.
     */
    ghost function QueueStateOf(id: Snowflake): QueueState
      reads this, QueueOf(id)
    {
      if id in guilds then guilds[id].queue.State() else FreshQueueState
    }

    /**
     * The player pointers guild `id` shows to whoever asks: the stored guild's, or the
     * persisted ones `Get` would copy into a new guild.
     */
    ghost function PointersOf(id: Snowflake, stored: StoredGuild): StoredGuild
      reads this, PlayerOf(id)
    {
      if id in guilds then StoredGuild(guilds[id].player.channelID, guilds[id].player.messageID) else stored
    }

    /**
     * A change to guild `id`'s own queue or player, with the map and every other guild's
     * objects as they were, keeps every other guild.
     */
    twostate lemma OwnChangeKeepsOthers(id: Snowflake)
      requires old(Valid()) && guilds == old(guilds)
      requires forall o :: o in old(guilds) && o != id ==>
        unchanged(old(guilds[o].queue)) && unchanged(old(guilds[o].player))
      ensures KeepsOthers(id)
    {
    }

    /**
     * The guild for `id`. A stored guild is returned as it is and the map is left alone;
     * otherwise a guild with an empty NoRepeat queue and the stored player pointers is
     * created and entered under `id`. Either way the queue handed out has the state
     * `QueueStateOf(id)` promised, so two calls in a row return the same guild.
     */
    method Get(id: Snowflake, stored: StoredGuild) returns (g: Guild)
      requires Valid()
      modifies this
      ensures KeepsOthers(id)
      ensures guilds == old(guilds)[id := g]
      ensures id in old(guilds) ==> g == old(guilds[id]) && guilds == old(guilds)
      ensures id !in old(guilds) ==>
        && fresh(g) && fresh(g.queue) && fresh(g.player)
        && g.player.channelID == stored.playerChannelID
        && g.player.messageID == stored.playerMessageID
      ensures g.queue.State() == old(QueueStateOf(id))
      ensures StoredGuild(g.player.channelID, g.player.messageID) == old(PointersOf(id, stored))
    {
      if id in guilds {
        g := guilds[id];
      } else {
        var queue := new Queue();
        var player := new GuildPlayer(stored.playerChannelID, stored.playerMessageID);
        g := new Guild(player, queue);
        guilds := guilds[id := g];
      }
    }

    /** The queue of guild `id`, through `Get`: never missing. */
    method GetQueue(id: Snowflake, stored: StoredGuild) returns (q: Queue)
      requires Valid()
      modifies this
      ensures KeepsOthers(id)
      ensures id in guilds && q == guilds[id].queue
      ensures guilds.Keys == old(guilds.Keys) + {id}
      ensures forall other :: other in old(guilds) ==> other in guilds && guilds[other] == old(guilds[other])
      ensures id in old(guilds) ==> guilds == old(guilds)
      ensures id !in old(guilds) ==>
        && fresh(q) && fresh(guilds[id].player)
        && guilds[id].player.channelID == stored.playerChannelID
        && guilds[id].player.messageID == stored.playerMessageID
      ensures q.State() == old(QueueStateOf(id))
    {
      var g := Get(id, stored);
      q := g.queue;
    }

    /** The player pointers of guild `id`, through `Get`: never missing. */
    method GetGuildPlayer(id: Snowflake, stored: StoredGuild) returns (p: GuildPlayer)
      requires Valid()
      modifies this
      ensures KeepsOthers(id)
      ensures id in guilds && p == guilds[id].player
      ensures guilds.Keys == old(guilds.Keys) + {id}
      ensures forall other :: other in old(guilds) ==> other in guilds && guilds[other] == old(guilds[other])
      ensures id in old(guilds) ==> guilds == old(guilds)
      ensures id !in old(guilds) ==>
        && fresh(p) && fresh(guilds[id].queue)
        && p.channelID == stored.playerChannelID && p.messageID == stored.playerMessageID
      ensures guilds[id].queue.State() == old(QueueStateOf(id))
      ensures StoredGuild(p.channelID, p.messageID) == old(PointersOf(id, stored))
    {
      var g := Get(id, stored);
      p := g.player;
    }

    /** Forget guild `id`; every other entry stays, and an absent id is a no-op. */
    method Delete(id: Snowflake)
      requires Valid()
      modifies this
      ensures Valid()
      ensures guilds == old(guilds) - {id}
      ensures QueueStateOf(id) == FreshQueueState
    {
      guilds := guilds - {id};
    }
  }
}
