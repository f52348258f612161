/**
 * Gateway event handling (event_handler.go): routing slash commands to their handlers,
 * reacting to voice-state changes, and keeping the dedicated player channel clean.
 */
module Events {
  import opened Wrappers
  import opened Lavalink
  import opened Discord
  import opened Queues
  import opened Guilds
  import BotCore

  /** The handlers `Bot.Handlers` holds (main.go). */
  datatype Command =
    | Play | Pause | NowPlaying | Stop | ShowQueue | ClearQueue | Repeat
    | Shuffle | Seek | Volume | Skip | Disconnect | Setup | Remove

  /** `Bot.Handlers`: command name to handler. */
  const Handlers: map<string, Command> := map[
    "play" := Play, "pause" := Pause, "now-playing" := NowPlaying, "stop" := Stop,
    "queue" := ShowQueue, "clear-queue" := ClearQueue, "repeat" := Repeat,
    "shuffle" := Shuffle, "seek" := Seek, "volume" := Volume, "skip" := Skip,
    "disconnect" := Disconnect, "setup" := Setup, "remove" := Remove]

  /** The slash commands registered with Discord (commands.go). */
  const DeclaredCommands: set<string> := {
    "setup", "play", "pause", "tts", "bits", "now-playing", "stop", "disconnect",
    "queue", "clear-queue", "repeat", "remove", "skip", "volume", "seek", "shuffle"}

  /** `onApplicationCommand`: the handler for `name`, or none (the command is only logged). */
  function Route(name: string): (r: Option<Command>)
    ensures r.Some? <==> name in Handlers
    ensures r.Some? ==> Handlers[name] == r.value
  {
    if name in Handlers then Some(Handlers[name]) else None
  }

  /**
   * Every routed name is a registered command, and every registered command is routed
   * except "tts" and "bits", which users can invoke but which do nothing.
   */
  lemma RoutesAllDeclaredButSpeech()
    ensures Handlers.Keys <= DeclaredCommands
    ensures DeclaredCommands - Handlers.Keys == {"tts", "bits"}
    ensures Route("tts") == None && Route("bits") == None
  {
    assert "tts" !in Handlers && "bits" !in Handlers;
  }

  /** The name each handler is registered under. */
  function NameOf(c: Command): string {
    match c
    case Play => "play"
    case Pause => "pause"
    case NowPlaying => "now-playing"
    case Stop => "stop"
    case ShowQueue => "queue"
    case ClearQueue => "clear-queue"
    case Repeat => "repeat"
    case Shuffle => "shuffle"
    case Seek => "seek"
    case Volume => "volume"
    case Skip => "skip"
    case Disconnect => "disconnect"
    case Setup => "setup"
    case Remove => "remove"
  }

  /** Every handler is reachable: its registered name routes to it. */
  lemma RouteReachesEveryHandler(c: Command)
    ensures Route(NameOf(c)) == Some(c)
  {
    match c
    case Play => assert "play" in Handlers;
    case Pause => assert "pause" in Handlers;
    case NowPlaying => assert "now-playing" in Handlers;
    case Stop => assert "stop" in Handlers;
    case ShowQueue => assert "queue" in Handlers;
    case ClearQueue => assert "clear-queue" in Handlers;
    case Repeat => assert "repeat" in Handlers;
    case Shuffle => assert "shuffle" in Handlers;
    case Seek => assert "seek" in Handlers;
    case Volume => assert "volume" in Handlers;
    case Skip => assert "skip" in Handlers;
    case Disconnect => assert "disconnect" in Handlers;
    case Setup => assert "setup" in Handlers;
    case Remove => assert "remove" in Handlers;
  }

  /** No two names share a handler: a routed name is the handler's registered name. */
  lemma RouteNamesItsHandler(name: string)
    requires name in Handlers
    ensures NameOf(Handlers[name]) == name
  {
  }

  /**
   * `onVoiceStateUpdate`. For someone else's update, the bot leaves when its cached
   * channel pointer is the event's channel pointer (the same `*snowflake.ID`, not just the
   * same id), the channel is cached, and exactly one member is in it. The bot's own
   * update is forwarded to the audio node; if it left voice, its guild is deleted and the
   * refresh that follows recreates it, with a fresh queue and the persisted pointers.
   *
   * `botCached` and `botChannel` are the bot's cached voice state and channel pointer,
   * `channelCached` whether that channel is in the cache, `members` its member count.
   */
  method OnVoiceStateUpdate(gm: GuildManager, id: Snowflake, stored: StoredGuild, fromBot: bool,
                            eventChannel: IdBox?, botCached: bool, botChannel: IdBox?,
                            channelCached: bool, members: nat) returns (actions: seq<Action>)
    requires !fromBot && botCached && botChannel == eventChannel ==> botChannel != null
    requires gm.Valid()
    modifies gm
    ensures gm.KeepsOthers(id)
    ensures !fromBot ==>
      && gm.guilds == old(gm.guilds)
      && actions == (if botCached && botChannel == eventChannel && channelCached && members == 1
                     then [UpdateVoiceState(None)] else [])
    ensures fromBot && eventChannel != null ==>
      gm.guilds == old(gm.guilds) && actions == [ForwardVoiceState(Some(eventChannel.id))]
    ensures fromBot && eventChannel == null ==>
      && gm.guilds.Keys == old(gm.guilds.Keys) + {id}
      && gm.QueueStateOf(id) == FreshQueueState
      && gm.PointersOf(id, stored) == stored
      && actions == [ForwardVoiceState(None), RefreshPlayerMessage]
  {
    if !fromBot {
      if !botCached || botChannel != eventChannel || !channelCached {
        return [];
      }
      if members == 1 {
        return [UpdateVoiceState(None)];
      }
      return [];
    }
    var channel := if eventChannel == null then None else Some(eventChannel.id);
    actions := [ForwardVoiceState(channel)];
    if eventChannel == null {
      gm.Delete(id);
      var _ := gm.GetGuildPlayer(id, stored);
      actions := actions + [RefreshPlayerMessage];
    }
  }

  /**
   * Reference equality at work: an event naming the bot's channel through a pointer of
   * its own (as a freshly decoded event does) never makes the bot leave, whatever the
   * member count.
   */
  method SameChannelOtherPointer(gm: GuildManager, id: Snowflake, stored: StoredGuild, channel: Snowflake)
    returns (actions: seq<Action>)
    requires gm.Valid()
    modifies gm
    ensures actions == [] && gm.guilds == old(gm.guilds)
  {
    var cached := new IdBox(channel);
    var decoded := new IdBox(channel);
    actions := OnVoiceStateUpdate(gm, id, stored, false, decoded, true, cached, true, 1);
  }

  /**
   * The reply callback `onGuildMessageCreate` hands to `playOrQueue`: each response is
   * sent as a reply in the channel, then the player message is refreshed.
   */
  function Replied(channel: Snowflake, response: Option<string>): (r: seq<Action>)
    ensures response.None? ==> r == []
    ensures response.Some? ==> r == [CreateMessage(channel), RefreshPlayerMessage]
  {
    if response.Some? then [CreateMessage(channel), RefreshPlayerMessage] else []
  }

  /**
   * `onGuildMessageCreate`. A message in the player channel that is not the player message
   * is deleted a little later, whoever wrote it; a bot's message is never played; a
   * user's message there is played only once the player message is known. Messages in
   * other channels are left alone. `plays` says whether `playOrQueue` runs, with the
   * message content as its query and the author's voice channel as `requester`; the
   * remaining parameters are those of `BotCore.PlayOrQueue`.
   */
  method OnGuildMessageCreate(gm: GuildManager, id: Snowflake, stored: StoredGuild, channel: Snowflake,
                              message: Snowflake, authorIsBot: bool, content: string,
                              requester: Option<Snowflake>, botChannel: Option<Snowflake>,
                              load: LoadResult, idle: bool, joinOk: bool)
    returns (actions: seq<Action>, plays: bool)
    requires load.SearchLoaded? ==> load.results != []
    requires gm.Valid()
    modifies gm, gm.QueueOf(id)
    ensures gm.KeepsOthers(id)
    ensures id in gm.guilds && gm.PointersOf(id, stored) == old(gm.PointersOf(id, stored))
    ensures var p := old(gm.PointersOf(id, stored));
      var cleanup := if p.playerChannelID == Some(channel) && p.playerMessageID != Some(message)
                     then [DeleteMessageLater(channel, message)] else [];
      && (plays <==> p.playerChannelID == Some(channel) && !authorIsBot && p.playerMessageID.Some?)
      && (!plays ==> actions == cleanup && gm.QueueStateOf(id) == old(gm.QueueStateOf(id)))
      && (plays ==>
            var r := BotCore.PlayOrQueueOutcome(old(gm.QueueStateOf(id)), requester, botChannel, content,
                                               load, idle, joinOk);
            && gm.QueueStateOf(id) == r.queue
            && actions == cleanup + r.actions + Replied(channel, r.response))
  {
    ghost var before := gm.QueueStateOf(id);
    var guildPlayer := gm.GetGuildPlayer(id, stored);
    assert gm.QueueStateOf(id) == before;
    actions, plays := [], false;
    if !guildPlayer.IsPlayerChannel(channel) {
      return;
    }
    if !guildPlayer.IsPlayerMessage(message) {
      actions := [DeleteMessageLater(channel, message)];
    }
    if authorIsBot || guildPlayer.messageID.None? {
      return;
    }
    plays := true;
    var response, played := BotCore.PlayOrQueue(gm, id, stored, requester, botChannel, content, load, idle, joinOk);
    ghost var r := BotCore.PlayOrQueueOutcome(before, requester, botChannel, content, load, idle, joinOk);
    assert gm.QueueStateOf(id) == r.queue && response == r.response && played == r.actions;
    if response.Some? {
      // The reply is sent, then `updatePlayerMessage` looks the guild up again.
      var _ := gm.GetGuildPlayer(id, stored);
    }
    actions := actions + played + Replied(channel, response);
  }

  /**
   * `onGuildMessageUpdate`: the player message, edited so that it lost its embeds, is
   * replaced (`ReplacePlayerMessage`). Any other edit changes nothing.
   */
  method OnGuildMessageUpdate(gm: GuildManager, id: Snowflake, stored: StoredGuild, channel: Snowflake,
                              message: Snowflake, embeds: nat, storeOk: bool, deleteOk: bool, rereadOk: bool,
                              newMessage: Snowflake) returns (actions: seq<Action>, saved: Option<StoredGuild>)
    requires gm.Valid()
    modifies gm, gm.PlayerOf(id)
    ensures gm.KeepsOthers(id)
    ensures id in gm.guilds && gm.QueueStateOf(id) == old(gm.QueueStateOf(id))
    ensures var p := old(gm.PointersOf(id, stored));
      var reset := p.playerChannelID == Some(channel) && p.playerMessageID == Some(message) && embeds == 0;
      && (!reset ==> actions == [] && saved == None && gm.PointersOf(id, stored) == p)
      && (reset ==> Replaced(gm.PointersOf(id, stored), actions, saved, p, channel, message, storeOk, deleteOk, rereadOk, newMessage))
  {
    var guildPlayer := gm.GetGuildPlayer(id, stored);
    if !(guildPlayer.IsPlayerChannel(channel) && guildPlayer.IsPlayerMessage(message) && embeds == 0) {
      return [], None;
    }
    actions, saved := ReplacePlayerMessage(gm, id, stored, channel, message, storeOk, deleteOk, rereadOk, newMessage);
  }

  /**
   * What replacing the player message leaves behind, from the pointers `p` it had: the
   * stored pointers are cleared, the old message deleted, and a new player message
   * created in the same channel. `storeOk` is whether the stored row could be read and
   * cleared, `deleteOk` whether the deletion went through, `rereadOk` whether
   * `createPlayerMessage` could read the cleared row back, `newMessage` the new message's
   * id; each failure stops the sequence where it happens.
   */
  predicate Replaced(after: StoredGuild, actions: seq<Action>, saved: Option<StoredGuild>, p: StoredGuild,
                     channel: Snowflake, message: Snowflake, storeOk: bool, deleteOk: bool, rereadOk: bool,
                     newMessage: Snowflake)
  {
    && (!storeOk ==> actions == [] && saved == None && after == p)
    && (storeOk && !deleteOk ==>
          && actions == [DeleteMessage(channel, message)]
          && saved == Some(StoredGuild(None, None))
          && after == p)
    && (storeOk && deleteOk && !rereadOk ==>
          && actions == [DeleteMessage(channel, message)]
          && saved == Some(StoredGuild(None, None))
          && after == p)
    && (storeOk && deleteOk && rereadOk ==>
          && actions == [DeleteMessage(channel, message), CreateMessage(channel), RefreshPlayerMessage, RefreshPlayerMessage]
          && saved == Some(StoredGuild(Some(channel), Some(newMessage)))
          && after == StoredGuild(Some(channel), Some(newMessage)))
  }

  /** The replacement step of `onGuildMessageUpdate`, on a guild the lookup has created. */
  method ReplacePlayerMessage(gm: GuildManager, id: Snowflake, stored: StoredGuild, channel: Snowflake,
                              message: Snowflake, storeOk: bool, deleteOk: bool, rereadOk: bool,
                              newMessage: Snowflake)
    returns (actions: seq<Action>, saved: Option<StoredGuild>)
    requires gm.Valid() && id in gm.guilds
    modifies gm, gm.PlayerOf(id)
    ensures gm.KeepsOthers(id)
    ensures id in gm.guilds && gm.QueueStateOf(id) == old(gm.QueueStateOf(id))
    ensures Replaced(gm.PointersOf(id, stored), actions, saved, old(gm.PointersOf(id, stored)),
                     channel, message, storeOk, deleteOk, rereadOk, newMessage)
  {
    if !storeOk {
      gm.OwnChangeKeepsOthers(id);
      return [], None;
    }
    saved := Some(StoredGuild(None, None));
    actions := [DeleteMessage(channel, message)];
    if !deleteOk {
      gm.OwnChangeKeepsOthers(id);
      return;
    }
    var reread := if rereadOk then saved else None;
    var created, row, more := BotCore.CreatePlayerMessage(gm, id, reread, channel, newMessage);
    if created {
      saved := row;
      actions := actions + more + [RefreshPlayerMessage];
    }
  }
}
