# A Discord music bot, modelled in Dafny

This project models the decision core of a Go Discord music bot. The bot keeps one
playback queue per guild (Discord server). It plays tracks through a Lavalink audio node
and shows the queue in a dedicated "player" message. The model covers these parts:

- the queue: append, clamped multi-skip, remove, shuffle, clear, and the cached total
  length;
- the guild registry, which creates a guild on first use, and its player-message
  pointers;
- the track-end auto-advance over the three repeat modes;
- the slash-command handlers;
- `playOrQueue`, with its checks, query normalisation, load-result handling and
  start-if-idle step;
- the queue and player projection of the player message, and the creation of that
  message;
- the gateway event handlers: command routing, voice-state updates, and the player
  channel's message filters;
- the older `MusicPlayer` generation, with its incremental duration bookkeeping and its
  own track-end decision.

Modules:

- `Wrappers` holds `Option`.
- `Lavalink` holds tracks, end reasons, load results, duration units and the player as
  the handlers see it.
- `Discord` holds snowflake ids, a pointer box for `*snowflake.ID` and the log of
  outbound calls (`Action`).
- `Format` holds `%d`, `%02d`, `formatDuration`, `min` and numbered lists.
- `Queues` is queue.go, `Guilds` is guild.go and `PlayerHandler` is player_handler.go.
- `Commands` is command_handler.go, `BotCore` is bot.go and `Events` is event_handler.go.
- `LegacyPlayer` is music_player.go.

How the outside world appears in the model:

- Most calls to Discord or to the audio node are recorded as an `Action`, in the order
  the source issues them. Failed attempts are recorded too. There are three exceptions:
  - `GetMessage` in `updatePlayerMessage` appears only through its outcome, the
    `fetched` parameter.
  - The interaction responses of the slash commands appear as the handler's reply text.
    This covers the deferral in `onApplicationCommand` and the reply embeds.
  - The reply that `onGuildMessageCreate` posts for a played message is a
    `CreateMessage` action (`Events.Replied`).
- What such a call returns is a parameter of the handler. This covers the load result,
  whether the voice update or the message deletion went through, whether the legacy
  player's `Play` went through (its error is discarded, but the player's track depends on
  it), the id of a new message, the player's state and an update error.
- The database row of a guild is a parameter too: `StoredGuild`, or
  `Option<StoredGuild>` where reading it can fail.
- A refresh of the player message (`updatePlayerMessage`) is recorded as a
  `RefreshPlayerMessage` action. Its effect on the registry is the `GetGuildPlayer`
  lookup the handlers perform. The message it renders is `BotCore.UpdatePlayerMessage`.

The guild registry (`Guilds.GuildManager`) keeps one invariant, `Valid`: no two guilds
share a queue object or a player object. Every handler that looks a guild up preserves
it and promises `KeepsOthers(id)`: the registry gains at most the key `id`, and every
other guild keeps its entry, its queue contents and its player pointers. The handlers
that do not clear the stored pointers also keep the pointers of guild `id`.

Three behaviours of the code that the model keeps as written. The second one lies past
the refresh panic of `Queue.Add` described under "## Left out"; the model lets `Add`
return, and then follows the code's order of steps.

- `Skip` and `Next` leave `Length` as it was, while `Add`, `Remove`, `Clear` and
  `RecalculateDuration` make it current. After a skip the total still counts tracks
  that have left the queue. `Queues.SkipLeavesLengthStale` states this.
- `playOrQueue` pops the front track before it tries to join the voice channel. Once
  `Add` returns, a failed join therefore loses that track: it is neither queued nor
  playing. `BotCore.EnqueueAndStart` states this. In the code as written, the `Add` at
  bot.go:164 or bot.go:179 panics first, so the pop is never reached.
- `createPlayerMessage` answers "This channel was already a player!" also when the
  stored row could not be read (`Commands.Setup`).

## Model

| member | source | states |
|---|---|---|
| Queues.ModeName | queue.go:23-34 | the three modes print as "No Repeat", "Repeat Track" and "Repeat Queue"; a string prints as "unknown" exactly when it is none of the three |
| Queues.TotalLengthConcat | queue.go:45-50 | the total length of two track lists joined is the sum of their totals |
| Queues.TotalLengthPermutation | queue.go:52-57 | any reordering of the tracks has the same total length, so a shuffle keeps a current `Length` current |
| Queues.SkipLeavesLengthStale | queue.go:69-79 | after skipping `k` tracks, a `Length` that was current still counts them; it matches the remaining tracks only if the skipped ones have length zero |
| Queues.Queue.RecalculateDuration | queue.go:45-50 | the loop leaves `Length` equal to the sum of the track lengths and changes nothing else |
| Queues.Queue.Shuffle | queue.go:52-57 | the new order is a permutation of the old one, for every choice of swap partners; `Length` and the mode are unchanged |
| Queues.Queue.Add | queue.go:59-63 | the tracks are appended at the back in order, the old prefix and the mode stay, and `Length` becomes the total |
| Queues.Queue.Next | queue.go:65-67 | succeeds exactly on a non-empty queue and then returns and removes the front; otherwise returns the zero track; `Length` is untouched |
| Queues.Queue.Skip | queue.go:69-79 | on a non-empty queue, with `k = min(amount, len)`, returns old[k-1] and leaves old[k..]; on an empty queue returns the zero track and changes nothing; `Length` is untouched |
| Queues.Queue.Remove | queue.go:81-90 | an index outside the queue changes nothing; otherwise returns old[index], keeps the tracks around it in order, and makes `Length` current |
| Queues.Queue.Clear | queue.go:92-96 | no tracks, length 0, mode unchanged |
| Guilds.GuildPlayer.IsPlayerChannel | guild.go:64-66 | holds iff a channel pointer is stored and names the given channel; the decimal-string comparison is id equality |
| Guilds.GuildPlayer.IsPlayerMessage | guild.go:68-70 | holds iff a message pointer is stored and names the given message |
| Guilds.GuildManager.Get | guild.go:26-48 | an id already present returns its guild and leaves the map alone; an absent id gets a fresh guild with an empty NoRepeat queue and the stored pointers; only that key changes |
| Guilds.GuildManager.GetQueue | guild.go:50-53 | never missing: the guild exists afterwards, the queue is its own, no other entry changes |
| Guilds.GuildManager.GetGuildPlayer | guild.go:55-58 | never missing: the guild exists afterwards, the pointers are the stored ones or the persisted ones, no other entry changes |
| Guilds.GuildManager.constructor | guild.go:21-24 | the registry starts empty, which satisfies `Valid` |
| Guilds.GuildManager.OwnChangeKeepsOthers | guild.go:21-24 | a handler that changed only guild `id`'s own queue and player, over an unchanged map, keeps every other guild (`KeepsOthers`) |
| Guilds.GuildManager.Delete | guild.go:60-62 | exactly that key goes, every other entry stays; the next lookup sees a fresh empty NoRepeat queue |
| PlayerHandler.TrackEndStep | player_handler.go:25-57 | NoRepeat pops the front and has no next track on an empty queue; RepeatTrack replays the ended track at position 0 and leaves the queue alone; RepeatQueue always has a next track, and next track followed by the new queue is the old queue followed by the ended track; an unknown mode has no next track |
| PlayerHandler.OnTrackEnd | player_handler.go:25-57 | a reason that may not start the next track changes nothing; otherwise the queue follows `TrackEndStep`; a next track gives exactly one player update and the queue change stands; no next track gives a refresh and a voice disconnect. Other guilds are untouched (`KeepsOthers`) and the guild's pointers stay. |
| PlayerHandler.RepeatQueueRotates | player_handler.go:44-46 | `n` RepeatQueue track ends in a row rotate the cycle (playing track, then queue) by `n`, so no track is lost or duplicated and something always plays |
| PlayerHandler.RepeatQueueFullTurn | player_handler.go:44-46 | after one full turn the same track plays again over the same queue |
| PlayerHandler.RepeatTrackReplays | player_handler.go:40-42 | under RepeatTrack every track end replays the same track from the start over an unchanged queue |
| PlayerHandler.NoRepeatDrains | player_handler.go:37-38 | under NoRepeat the `n`-th end plays the `n`-th queued track, and one end after the last there is nothing to play |
| Commands.Shuffle | command_handler.go:12-21 | the guild's queue becomes a permutation of itself; the length and mode stay. Other guilds are untouched (`KeepsOthers`) and the guild's pointers stay. |
| Commands.Volume | command_handler.go:23-35 | without a player, "No player found" and no call; otherwise one volume update, then an error reply or the level echoed in decimal |
| Commands.Seek | command_handler.go:37-54 | the target is position × unit with the unit defaulting to one millisecond; one seek update with that target |
| Commands.SeekReplyShowsTarget | command_handler.go:43-53 | for every offered unit the reply's clock reads back as the target, cut to whole seconds; for seconds, minutes and hours nothing is cut |
| Commands.Skip | command_handler.go:56-79 | the amount defaults to 1; no player or an empty queue gives its reply and no update; otherwise the first `min(amount, len)` tracks leave, the last of them replaces the playing track, and `Length` stays as it was. Other guilds are untouched (`KeepsOthers`) and the guild's pointers stay. |
| Commands.RepeatType | command_handler.go:81-91 | any string becomes the mode, `Length` becomes current, and the reply names the mode ("unknown" outside the three). Other guilds are untouched (`KeepsOthers`) and the guild's pointers stay. |
| Commands.ClearQueue | command_handler.go:93-102 | the queue is emptied with length 0 and the mode kept. Other guilds are untouched (`KeepsOthers`) and the guild's pointers stay. |
| Commands.RemoveQueue | command_handler.go:104-116 | a 1-based id in 1..len removes track id-1 and makes `Length` current; any other id replies "Can't remove track" and changes nothing. Other guilds are untouched (`KeepsOthers`) and the guild's pointers stay. |
| Commands.QueueListing | command_handler.go:128-131 | the loop builds one line per track, numbered from 1, in queue order |
| Commands.ShowQueue | command_handler.go:118-134 | "No tracks in queue" for an empty queue, otherwise the mode name and the full listing; the queue is unchanged. Other guilds are untouched (`KeepsOthers`) and the guild's pointers stay. |
| Commands.Pause | command_handler.go:136-152 | the update asks for the opposite of the current paused flag; the reply names the new state. Other guilds are untouched (`KeepsOthers`) and the guild's pointers stay. |
| Commands.Stop | command_handler.go:154-166 | the player gets a null track and the queue is left alone. Other guilds are untouched (`KeepsOthers`) and the guild's pointers stay. |
| Commands.Disconnect | command_handler.go:168-180 | one voice disconnect; the reply says whether it went through. Other guilds are untouched (`KeepsOthers`) and the guild's pointers stay. |
| Commands.NowPlaying | command_handler.go:182-194 | no player, no track, or the track with its position and length as clocks |
| Commands.NowPlayingShowsProgress | command_handler.go:193 | both clocks of the reply read back as the position and the length, cut to whole seconds |
| Commands.Setup | command_handler.go:207-212 | "Player created" exactly when a new player message was created, which points the guild at the new channel and message; otherwise "This channel was already a player!" and nothing changes: the registry and the guild's player pointers stay as they were. Other guilds are untouched (`KeepsOthers`). |
| Format.Decimal | bot.go:67 | `%d` of a natural number: at least one digit, all digits, and the digits read back as the number |
| Format.DecimalInjective | guild.go:64-70 | two ids print the same only if they are equal |
| Format.Pad2 | bot.go:329-331 | `%02d`: a non-negative part has at least two digits that read back as the part, exactly two below 100 |
| Format.FormatDurationReadsBack | bot.go:329-331 | "HH:MM:SS" with two-digit minutes and seconds below 60 and an hour field of two or more digits; the fields recompose the duration cut to whole seconds |
| Format.Min | bot.go:340-345 | the result is one of the arguments and at most both |
| Format.NumberedLines | bot.go:76-79 | one line per track, line `i` numbered `i + 1` |
| BotCore.QueueView | bot.go:65-83 | the duration field is present exactly when tracks are queued, and it shows the cached `Length`, not a recomputed total |
| BotCore.QueueViewEmptyNotice | bot.go:65-83 | the duration field is absent exactly for an empty queue; an empty queue shows "The queue is empty"; a non-empty one opens with the line numbered 1 |
| BotCore.QueueViewListsFirstTen | bot.go:76-79 | the view lists `min(10, n)` tracks, numbered from 1, in queue order |
| BotCore.DescriptionPastTen | bot.go:68-83 | past ten tracks the description is the first ten lines followed by "and other n-10 tracks" |
| BotCore.DescriptionUpToTen | bot.go:68-83 | up to ten tracks the description lists all of them and nothing else |
| BotCore.RenderDescription | bot.go:68-83 | the loop builds exactly the view's description |
| BotCore.RenderQueueEmbed | bot.go:65-83 | the built embed is the queue view: title with the count, description, duration field |
| BotCore.PlayerView | bot.go:85-105 | the footer shows the mode name; no track gives "Nothing currently playing" and the fallback image; a track shows the play or pause mark, its title, its link and its artwork |
| BotCore.UpdatePlayerMessage | bot.go:46-114 | an edit happens exactly when both pointers are set and the message was fetched; it shows the guild's current queue and player; the queue is unchanged. Other guilds are untouched (`KeepsOthers`) and the guild's pointers stay. |
| BotCore.UrlPatternMatches | main.go:27 | the pattern matches exactly the strings starting with "http://" or "https://" |
| BotCore.NormalizeQuery | bot.go:132-134 | the query passes unchanged exactly when it is a URL; otherwise it becomes a YouTube search, which is no longer a URL |
| BotCore.Enqueued | bot.go:149-187 | a track or a search appends exactly one track, the first hit; a playlist appends all of its tracks in order; empty and error results append nothing |
| BotCore.PlaylistLength | bot.go:166-171 | the loop sums the playlist's track lengths |
| BotCore.EnqueueAndStart | bot.go:136-202 | volume and load calls come first; empty and error results leave the queue alone; when idle the front of the appended queue is popped, and it is the requested track only if the queue was empty; a failed join leaves it popped and sends no reply |
| BotCore.LoadAndStart | bot.go:136-202 | the queue steps produce exactly `EnqueueAndStart`'s queue, reply and calls |
| BotCore.PlayOrQueueOutcome | bot.go:116-203 | a requester outside voice gets "Please join a VoiceChannel…" and a bot in another channel "Bot was already in other channel", with no call and the queue unchanged; otherwise `EnqueueAndStart` with the normalised query, opening with the volume and load calls |
| BotCore.PlayOrQueue | bot.go:116-203 | the guild's queue, the reply and the calls are those of `PlayOrQueueOutcome`; a rejected request leaves the registry as it was. Other guilds are untouched (`KeepsOthers`) and the guild's pointers stay. |
| BotCore.LoadIntoGuild | bot.go:136-203 | the guild is looked up (created if absent) and its queue, reply and calls follow `EnqueueAndStart`. Other guilds are untouched (`KeepsOthers`) and the guild's pointers stay. |
| BotCore.CreatePlayerMessage | bot.go:303-327 | a message is created exactly when the row was read and names no player channel or another one; then the in-memory pointers and the saved row both name the new channel and message; otherwise no call is made, the row is returned as it was, and the registry and the guild's player pointers are unchanged. Other guilds are untouched (`KeepsOthers`). |
| BotCore.Announcement | bot.go:149-187 | an empty result answers "No tracks found", an error result the loader's message after "error while loading track:"; a track, search hit or playlist is announced starting with "▶ Playing" when idle and "Queued" otherwise |
| BotCore.BitsText | bot.go:228-229 | no bits leaves the text alone; a positive amount is announced first, and its digits read back as the amount |
| Events.Route | event_handler.go:14-27 | a handler runs exactly when the name is a key of the handler table |
| Events.RoutesAllDeclaredButSpeech | main.go:121-136 | every routed name is a declared command; of the declared commands only "tts" and "bits" have no handler |
| Events.RouteReachesEveryHandler | main.go:121-136 | every handler's registered name routes to that handler |
| Events.RouteNamesItsHandler | main.go:121-136 | a routed name is the registered name of its handler, so no two names share one |
| Events.OnVoiceStateUpdate | event_handler.go:29-50 | someone else's update never touches the registry and disconnects only when the bot's cached channel pointer is the event's, the channel is cached and one member is in it; the bot's own update is forwarded, and when it left voice the guild is deleted and re-created with a fresh queue. Other guilds are untouched (`KeepsOthers`). |
| Events.SameChannelOtherPointer | event_handler.go:32 | two distinct pointers to the same channel id do not match, so the bot stays |
| Events.Replied | event_handler.go:83-92 | a reply posts one message in the channel and then refreshes the player message; no reply, no call |
| Events.OnGuildMessageCreate | event_handler.go:71-96 | in the player channel every message but the player message is deleted later; a message plays exactly when it is in the player channel, not from a bot, and the player message is known; playing runs `PlayOrQueueOutcome` on the content and posts its reply; otherwise the queue is unchanged. Other guilds are untouched (`KeepsOthers`) and the guild's pointers stay. |
| Events.OnGuildMessageUpdate | event_handler.go:98-121 | only the player message in the player channel, edited down to zero embeds, is reset, as `ReplacePlayerMessage` describes; any other edit changes nothing. The queue stays, and other guilds are untouched (`KeepsOthers`). |
| Events.ReplacePlayerMessage | event_handler.go:102-119 | a failed row read stops at once; otherwise the row is cleared and the old message deleted; a failed deletion stops there with the old pointers; after a deletion, a failed re-read of the row inside `createPlayerMessage` stops with the row cleared, the old in-memory pointers and no further call; a successful re-read creates a new player message in the same channel, points the guild and the row at it, and refreshes twice |
| LegacyPlayer.Decide | music_player.go:84-105 | a looping player replays a finished track; the next track starts only when the reason allows it and tracks are queued; the player leaves exactly when there is nothing queued or the track was stopped, unless it was replaced |
| LegacyPlayer.StopWithQueueLeaves | music_player.go:94-97 | a stop with tracks queued leaves, where the current handler would do nothing |
| LegacyPlayer.MusicPlayer.constructor | music_player.go:15-25 | a new player has an empty queue, zero duration, no looping and nothing playing, so its duration is current |
| LegacyPlayer.MusicPlayer.PlayNextInQueue | music_player.go:37-43 | the front leaves the queue and its length leaves the duration, whether or not `Play` goes through; it becomes the player's track only if it does, otherwise the track stays as it was; a current duration stays current |
| LegacyPlayer.MusicPlayer.Queue | music_player.go:45-66 | every track is appended in order and its length added; an idle player then takes the front off the queue and plays it, which is its track afterwards only if `Play` went through; a playing player only refreshes; a current duration stays current |
| LegacyPlayer.MusicPlayer.OnTrackEnd | music_player.go:84-105 | refresh first, then replay, play next, stay or leave as `Decide` says; a replayed or next track is the player's track only if `Play` went through, else nothing plays; the player is removed from the registry only if the disconnect went through |
| LegacyPlayer.MusicPlayer.RenderQueueEmbed | music_player.go:143-160 | the built embed is the legacy queue view |
| LegacyPlayer.RenderDescending | music_player.go:156-159 | the descending loop appends lines `k` down to 1 |
| LegacyPlayer.DescendingReversesListing | music_player.go:156-159 | the legacy listing is the current listing reversed, with the same lines |
| LegacyPlayer.LegacyOpensWithMore | music_player.go:152-159 | past ten tracks the legacy description opens with "and other n-10 tracks", then track 10 |

## Left out

- Discord REST and gateway calls, Lavalink calls and the database are outside the model.
  They appear as recorded actions and as parameters, as described above.
- Concurrency is left out. The registry has no lock, and the model is sequential. The
  delayed deletion in `onGuildMessageCreate` is recorded as one `DeleteMessageLater`
  action, without the five-second sleep.
- Randomness is left out. `Queues.Queue.Shuffle` holds for every choice of swap
  partners, not for Go's generator.
- Every track is assumed to have a URI. The code dereferences `*track.Info.URI` when
  rendering (bot.go:78, 93, 158, 161; command_handler.go:115, 130, 193), so a track
  without one panics there. `Lavalink.Track` has a plain `uri` string.
- Integer width is left out. Lengths, durations and the seek target are unbounded, so
  int64 overflow is not modelled.
- Panic paths are excluded by preconditions rather than modelled:
  - a search result with no hits (`BotCore.Enqueued`);
  - `Skip` with an amount below 1 on a non-empty queue (`Queues.Queue.Skip`,
    `Commands.Skip`);
  - `MusicPlayer.Queue` without tracks, and `PlayNextInQueue` on an empty queue;
  - the nil dereference in `onVoiceStateUpdate` when both channel pointers are nil.
  - The loader error at bot.go:143-147, the row read after a failed store call at guild.go:33-40, and a nil message after a failed
    `CreateMessage` in `createPlayerMessage` are not modelled. The loader and the store
    are treated as total.
- The `queue == nil` branches of the command handlers cannot be taken, because
  `GetQueue` never returns nil. They are not modelled.
- Message wording beyond the distinctions stated is left out: embed colours, reply
  embeds of `playOrQueue`'s caller, and the user-data tag `Queue` attaches to tracks.
- BotCore.EnqueueAndStart: on an error result the code builds its reply from the
  loader's `err` (bot.go:185). That `err` is nil whenever a result came back, so the
  code panics there. The model replies "error while loading track:" followed by the
  result's message, and records no further call.
- BotCore.LoadAndStart: the same error branch, on the queue; see
  `BotCore.EnqueueAndStart`.
- BotCore.Announcement: its error text is the reply the code means to send; the code
  panics before sending it (bot.go:185).
- Queues.Queue.Add: the queue that `GuildManager.Get` builds (guild.go:28-31) leaves its
  `bot` field nil. `Add` ends with `q.bot.updatePlayerMessage`, and `updatePlayerMessage`
  reads `b.Guilds` through that nil pointer (bot.go:47). So in the code every `Add` on a
  registry queue panics right after appending (queue.go:62). The model returns with
  the tracks appended and no refresh.
- BotCore.EnqueueAndStart: a track, search hit or playlist is queued with `Add`
  (bot.go:164, 179), which panics in the code (see `Queues.Queue.Add`). The model's
  pop, voice join, play call and reply after the append are the steps the code would
  take if `Add` returned.
- PlayerHandler.OnTrackEnd: under RepeatQueue the ended track goes back with `Add`
  (player_handler.go:45), which panics in the code (see `Queues.Queue.Add`). The
  model's rotation, play call and `RepeatQueueRotates` are the steps the code would take
  if `Add` returned.
- Queues.Queue.Shuffle: panics the same way right after shuffling (queue.go:56). The
  model returns with the shuffled queue.
- Queues.Queue.Remove: panics the same way right after removing (queue.go:88). The
  model returns with the track removed.
- Queues.Queue.Clear: panics the same way right after clearing (queue.go:95). The model
  returns with the queue empty.
- The `play` command (command_handler.go:196-205) is `BotCore.PlayOrQueue` followed by a
  reply and a refresh. It has no member of its own.
- Most of `textToSpeech` is left out: the TTS request, its JSON configuration with a
  floating-point speaking rate, and the extra bits track it queues. Only the spoken text
  is modelled (`BotCore.BitsText`).
- The legacy player embed (title, Spotify artwork, "Looping" footer) is left out. Only
  the queue embed of music_player.go's `UpdatePlayerMessage` is modelled. Its guards
  are left out too. That method reads the guild's database row on every refresh and
  returns when the read fails (music_player.go:119-127). `BotCore.UpdatePlayerMessage`
  instead reads the in-memory `GuildPlayer` (bot.go:47-50).
- LegacyPlayer.MusicPlayer.OnTrackEnd: assumes the audio player drops the ended track
  before notifying its listeners. The listener removal and player removal that follow a
  successful disconnect are left out.
- The older generation's Discord handlers (listeners.go, utils.go) are not part of this
  model. The refresh calls inside the queue methods (queue.go:56, 62, 88, 95) are left
  out, for the reason given under `Queues.Queue.Add` above.
- The player, pause, resume, start, exception, stuck and closed callbacks only log.
  Command registration and startup (commands.go, main.go) are used only for the handler
  table, the option choices and `urlPattern`.
