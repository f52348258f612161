/**
 * The bot's own operations (bot.go): play-or-enqueue, the projection of a guild's queue
 * and player onto the dedicated player message, creating that message, and the bits
 * prefix of text-to-speech. Discord and the audio node are inputs (what the caches and
 * calls answered) and outputs (the `Action`s issued).
 */
module BotCore {
  import opened Wrappers
  import opened Lavalink
  import opened Discord
  import opened Format
  import opened Queues
  import opened Guilds

  // ---------------------------------------------------------------- the player message

  /** Text of the player message itself. */
  const PlayerMessageContent: string := "Join a voice channel and queue songs by name or url in here."
  /** Image shown when the playing track has no artwork, or nothing plays. */
  const FallbackImage: string :=
    "https://images.pexels.com/videos/3045163/free-video-3045163.jpg?auto=compress&cs=tinysrgb&dpr=1"
  const PlayingMark: string := "\U{25B6}\U{FE0F}"
  const PausedMark: string := "\U{23F8}\U{FE0F}"
  /** How many queued tracks the queue embed lists. */
  const ViewLimit: nat := 10

  datatype QueueEmbed = QueueEmbed(title: string, description: string, durationField: Option<string>)
  datatype PlayerEmbed = PlayerEmbed(title: string, url: Option<string>, image: string, footer: string)
  datatype PlayerMessage = PlayerMessage(content: string, player: PlayerEmbed, queue: QueueEmbed)

  /** One listed track: "<n>. [<title>](<uri>) `<length>`". */
  function ViewLine(n: nat, t: Track): string {
    Decimal(n) + ". [" + t.title + "](" + t.uri + ") `" + FormatDuration(t.length) + "`\n"
  }

  /** The line under the list when more than ten tracks are queued. */
  function MoreTracksLine(more: nat): string {
    "**and other " + Decimal(more) + " tracks...**\n"
  }

  /** What the description starts with: the empty notice when nothing is queued. */
  function EmptyNotice(n: nat): string {
    if n == 0 then "The queue is empty" else ""
  }

  /** What the description ends with: the "and other" line past ten tracks. */
  function MoreNotice(n: nat): string {
    if n > ViewLimit then MoreTracksLine(n - ViewLimit) else ""
  }

  /** The listed part of the description: the first `min(10, n)` tracks, numbered. */
  function ListedLines(tracks: seq<Track>): seq<string> {
    NumberedLines(tracks[..Min(ViewLimit, |tracks|)], ViewLine)
  }

  /** The queue embed's text: the empty notice, the listed tracks, the "and other" line. */
  function Description(tracks: seq<Track>): string {
    EmptyNotice(|tracks|) + Concat(ListedLines(tracks)) + MoreNotice(|tracks|)
  }

  /**
   * The queue embed as the player message shows it: the title counts every queued
   * track, the description lists the first ten (or "The queue is empty"), and a
   * duration field carrying the cached length appears whenever the queue is not empty.
   */
  function QueueView(q: QueueState): (r: QueueEmbed)
    ensures q.tracks == [] <==> r.durationField.None?
    ensures r.durationField.Some? ==> r.durationField.value == FormatDuration(q.length)
  {
    var n := |q.tracks|;
    QueueEmbed(
      "Queue list (" + Decimal(n) + ")",
      Description(q.tracks),
      if n == 0 then None else Some(FormatDuration(q.length)))
  }

  /**
   * The queue view of an empty queue: the empty notice and no duration field. A
   * non-empty queue gets the field and a description opening with line "1." (so never
   * the empty notice).
   */
  lemma QueueViewEmptyNotice(q: QueueState)
    ensures var v := QueueView(q);
      && (q.tracks == [] <==> v.durationField.None?)
      && (q.tracks == [] ==> v.description == "The queue is empty")
      && (q.tracks != [] ==> |v.description| > 0 && v.description[0] == '1')
  {
    if q.tracks != [] {
      DescriptionOpensWithFront(q.tracks);
    } else {
      assert ListedLines(q.tracks) == [];
    }
  }

  /** A non-empty queue's description starts with the front track's number, "1". */
  lemma DescriptionOpensWithFront(tracks: seq<Track>)
    requires tracks != []
    ensures |Description(tracks)| > 0 && Description(tracks)[0] == '1'
  {
    var lines := ListedLines(tracks);
    assert lines[0] == ViewLine(1, tracks[0]);
    ViewLineOpensWithNumber(tracks[0]);
    ConcatStartsWithFirst(lines);
  }

  /** The first listed line starts with its number. */
  lemma ViewLineOpensWithNumber(t: Track)
    ensures |ViewLine(1, t)| > 0 && ViewLine(1, t)[0] == '1'
  {
    assert Decimal(1) == "1";
  }

  /** Past ten tracks the description is the first ten lines and the "and other" line. */
  lemma DescriptionPastTen(tracks: seq<Track>)
    requires |tracks| > ViewLimit
    ensures Description(tracks) == Concat(ListedLines(tracks)) + MoreTracksLine(|tracks| - ViewLimit)
  {
    DescriptionNonEmpty(tracks);
    assert MoreNotice(|tracks|) == MoreTracksLine(|tracks| - ViewLimit);
  }

  /** A non-empty queue's description is its listing followed by the "and other" line, if any. */
  lemma DescriptionNonEmpty(tracks: seq<Track>)
    requires tracks != []
    ensures Description(tracks) == Concat(ListedLines(tracks)) + MoreNotice(|tracks|)
  {
    var text := Concat(ListedLines(tracks));
    assert "" + text == text;
  }

  /** Up to ten tracks the description is the listing of all of them and nothing else. */
  lemma DescriptionUpToTen(tracks: seq<Track>)
    requires 0 < |tracks| <= ViewLimit
    ensures Description(tracks) == Concat(NumberedLines(tracks, ViewLine))
  {
    DescriptionNonEmpty(tracks);
    ListsAllUpToTen(tracks);
    var text := Concat(ListedLines(tracks));
    assert MoreNotice(|tracks|) == "";
    assert text + "" == text;
  }

  /** Up to ten tracks every one of them is listed. */
  lemma ListsAllUpToTen(tracks: seq<Track>)
    requires |tracks| <= ViewLimit
    ensures ListedLines(tracks) == NumberedLines(tracks, ViewLine)
  {
    assert tracks[..Min(ViewLimit, |tracks|)] == tracks;
  }

  /** The queue view lists the first `min(10, n)` tracks, numbered from 1, in queue order. */
  lemma QueueViewListsFirstTen(q: QueueState)
    ensures |ListedLines(q.tracks)| == Min(ViewLimit, |q.tracks|)
    ensures forall i :: 0 <= i < Min(ViewLimit, |q.tracks|) ==> ListedLines(q.tracks)[i] == ViewLine(i + 1, q.tracks[i])
  {
  }

  /** A concatenation of non-empty lines starts with the first line's first character. */
  lemma {:induction false} ConcatStartsWithFirst(lines: seq<string>)
    requires lines != [] && lines[0] != []
    ensures |Concat(lines)| > 0 && Concat(lines)[0] == lines[0][0]
    decreases |lines|
  {
    if |lines| > 1 {
      var init := lines[..|lines| - 1];
      ConcatStartsWithFirst(init);
    } else {
      assert lines[..0] == [];
    }
  }

  /**
   * The queue embed, built as `updatePlayerMessage` builds it: the title, the duration
   * field, and the description from `RenderDescription`.
   */
  method RenderQueueEmbed(q: QueueState) returns (e: QueueEmbed)
    ensures e == QueueView(q)
  {
    var n := |q.tracks|;
    var field: Option<string> := None;
    if n > 0 {
      field := Some(FormatDuration(q.length));
    }
    var description := RenderDescription(q.tracks);
    e := QueueEmbed("Queue list (" + Decimal(n) + ")", description, field);
  }

  /**
   * The queue embed's description, built as `updatePlayerMessage` builds it: the empty
   * notice, then one line per listed track in a loop, then the "and other" line.
   */
  method RenderDescription(tracks: seq<Track>) returns (description: string)
    ensures description == Description(tracks)
  {
    var n := |tracks|;
    description := EmptyNotice(n);
    for i := 0 to Min(ViewLimit, n)
      invariant description == EmptyNotice(n) + Concat(NumberedLines(tracks[..i], ViewLine))
    {
      NumberedConcatStep(EmptyNotice(n), tracks, i, ViewLine);
      description := description + ViewLine(i + 1, tracks[i]);
    }
    description := description + MoreNotice(n);
  }

  /**
   * The player embed: the playing track behind a play or pause mark (or "Nothing
   * currently playing"), its artwork or the fallback image, and the mode in the footer.
   */
  function PlayerView(player: Lavalink.PlayerView, mode: QueueType): (e: PlayerEmbed)
    ensures e.footer == "Mode: " + ModeName(mode)
    ensures player.track.None? ==> e == PlayerEmbed("Nothing currently playing", None, FallbackImage, e.footer)
    ensures player.track.Some? ==>
      var t := player.track.value;
      && e.title == (if player.paused then PausedMark else PlayingMark) + " " + t.title
      && e.url == Some(t.uri)
      && e.image == t.artworkUrl.GetOr(FallbackImage)
  {
    var footer := "Mode: " + ModeName(mode);
    match player.track
    case None => PlayerEmbed("Nothing currently playing", None, FallbackImage, footer)
    case Some(t) =>
      PlayerEmbed((if player.paused then PausedMark else PlayingMark) + " " + t.title, Some(t.uri),
                  t.artworkUrl.GetOr(FallbackImage), footer)
  }

  /**
   * `updatePlayerMessage`: look the guild up (creating it if needed), and edit the player
   * message only when both stored pointers are set and the message could be fetched.
   * The edit shows the guild's queue and the audio-node player as they are now.
   */
  method UpdatePlayerMessage(gm: GuildManager, id: Snowflake, stored: StoredGuild, fetched: bool,
                             player: Lavalink.PlayerView) returns (edit: Option<PlayerMessage>)
    requires gm.Valid()
    modifies gm
    ensures gm.KeepsOthers(id)
    ensures gm.PointersOf(id, stored) == old(gm.PointersOf(id, stored))
    ensures id in gm.guilds
    ensures old(id in gm.guilds) ==> gm.guilds == old(gm.guilds)
    ensures gm.QueueStateOf(id) == old(gm.QueueStateOf(id))
    ensures var p := gm.guilds[id].player;
      edit.Some? <==> p.channelID.Some? && p.messageID.Some? && fetched
    ensures edit.Some? ==>
      var q := gm.QueueStateOf(id);
      edit.value == PlayerMessage(PlayerMessageContent, PlayerView(player, q.mode), QueueView(q))
  {
    var guildPlayer := gm.GetGuildPlayer(id, stored);
    if guildPlayer.channelID.None? || guildPlayer.messageID.None? || !fetched {
      return None;
    }
    label Found:
    var queue := gm.GetQueue(id, stored);
    gm.OwnChangeKeepsOthers@Found(id);
    var queueEmbed := RenderQueueEmbed(queue.State());
    edit := Some(PlayerMessage(PlayerMessageContent, PlayerView(player, queue.mode), queueEmbed));
  }

  // ---------------------------------------------------------------- play or enqueue

  /**
   * `urlPattern` (main.go): "^https?://" followed by a part that may be empty, so a query
   * matches exactly when it starts with "http://" or "https://".
   */
  function UrlPatternMatches(query: string): (r: bool)
    ensures r <==> "http://" <= query || "https://" <= query
  {
    && |query| >= 4 && query[..4] == "http"
    && var rest := if |query| > 4 && query[4] == 's' then query[5..] else query[4..];
    && |rest| >= 3 && rest[..3] == "://"
  }

  /**
   * A URL is loaded as it is; anything else becomes a YouTube search, which is no
   * longer a URL. So the query passes unchanged exactly when it is a URL.
   */
  function NormalizeQuery(query: string): (r: string)
    ensures r == query <==> UrlPatternMatches(query)
    ensures UrlPatternMatches(query) ==> r == query
    ensures !UrlPatternMatches(query) ==> r == YouTubeSearchPrefix + query && !UrlPatternMatches(r)
  {
    if UrlPatternMatches(query) then query else YouTubeSearchPrefix + query
  }

  /** The tracks a load result puts in the queue: the first hit, a whole playlist, or none. */
  function Enqueued(load: LoadResult): (added: seq<Track>)
    requires load.SearchLoaded? ==> load.results != []
    ensures load.TrackLoaded? ==> added == [load.track]
    ensures load.SearchLoaded? ==> added == [load.results[0]]
    ensures load.PlaylistLoaded? ==> added == load.tracks
    ensures load.EmptyLoaded? || load.ErrorLoaded? ==> added == []
  {
    match load
    case TrackLoaded(t) => [t]
    case SearchLoaded(results) => [results[0]]
    case PlaylistLoaded(_, tracks) => tracks
    case _ => []
  }

  /** The summed length of a playlist, accumulated track by track. */
  method PlaylistLength(tracks: seq<Track>) returns (total: nat)
    ensures total == TotalLength(tracks)
  {
    total := 0;
    for i := 0 to |tracks|
      invariant total == TotalLength(tracks[..i])
    {
      assert tracks[..i + 1][..i] == tracks[..i];
      total := total + tracks[i].length;
    }
    assert tracks[..|tracks|] == tracks;
  }

  /** "▶ Playing" when nothing plays yet, "Queued" otherwise. */
  function Verb(idle: bool): string {
    if idle then "\U{25B6} Playing" else "Queued"
  }

  /**
   * The reply to a load: "No tracks found" for an empty result, the loader's message for
   * an error, and otherwise an announcement opening with "▶ Playing" when nothing plays
   * yet or "Queued" when something does.
   */
  function Announcement(load: LoadResult, query: string, idle: bool): (r: string)
    requires load.SearchLoaded? ==> load.results != []
    ensures load.EmptyLoaded? ==> r == "No tracks found"
    ensures load.ErrorLoaded? ==> r == "error while loading track:\n" + load.message
    ensures !load.EmptyLoaded? && !load.ErrorLoaded? ==>
      |Verb(idle)| <= |r| && r[..|Verb(idle)|] == Verb(idle)
  {
    match load
    case PlaylistLoaded(name, tracks) =>
      var r := Verb(idle) + PlaylistLine(name, |tracks|, query, TotalLength(tracks));
      assert r[..|Verb(idle)|] == Verb(idle);
      r
    case EmptyLoaded => "No tracks found"
    case ErrorLoaded(message) => "error while loading track:\n" + message
    case _ =>
      var r := Verb(idle) + TrackLine(Enqueued(load)[0]);
      assert r[..|Verb(idle)|] == Verb(idle);
      r
  }

  /** What follows the verb for a playlist: " <n> tracks from [<name>](<query>) playlist `<total>`". */
  function PlaylistLine(name: string, count: nat, query: string, total: int): string {
    " " + Decimal(count) + " tracks from [" + name + "](" + query + ") playlist `" + FormatDuration(total) + "`"
  }

  /** What follows the verb for one track: " [<title>](<uri>) `<length>`". */
  function TrackLine(t: Track): string {
    " [" + t.title + "](" + t.uri + ") `" + FormatDuration(t.length) + "`"
  }

  const JoinVoiceFirst: string := "Please join a VoiceChannel to use this command"
  const BusyElsewhere: string := "Bot was already in other channel"

  /** The queue, reply and calls that loading a query leaves behind. */
  datatype Outcome = Outcome(queue: QueueState, response: Option<string>, actions: seq<Action>)

  /**
   * What `playOrQueue` does once the requester may play: set the volume, load `query`,
   * append what it yields, and, when nothing was playing, pop the queue front, join
   * `channel` and play it. The started track is the requested one only when the queue
   * was empty before. A failed join leaves the track popped and sends no reply.
   */
  function EnqueueAndStart(before: QueueState, channel: Snowflake, query: string, load: LoadResult,
                           idle: bool, joinOk: bool): (r: Outcome)
    requires load.SearchLoaded? ==> load.results != []
    ensures r.queue.mode == before.mode
    ensures |r.actions| >= 2 && r.actions[..2] == [SetVolume(40), LoadTracks(query)]
    ensures load.EmptyLoaded? || load.ErrorLoaded? ==>
      r == Outcome(before, Some(Announcement(load, query, idle)), [SetVolume(40), LoadTracks(query)])
    ensures !load.EmptyLoaded? && !load.ErrorLoaded? ==>
      var appended := before.tracks + Enqueued(load);
      && r.queue.length == TotalLength(appended)
      && (!idle || appended == [] ==>
            && r.queue.tracks == appended && |r.actions| == 2
            && r.response == Some(Announcement(load, query, idle)))
      && (idle && appended != [] ==>
            && appended[0] == (if before.tracks == [] then Enqueued(load)[0] else before.tracks[0])
            && r.queue.tracks == appended[1..]
            && |r.actions| >= 3 && r.actions[2] == UpdateVoiceState(Some(channel))
            && (joinOk ==> |r.actions| == 4 && r.actions[3] == PlayTrack(appended[0])
                           && r.response == Some(Announcement(load, query, idle)))
            && (!joinOk ==> |r.actions| == 3 && r.response == None))
  {
    var loading := [SetVolume(40), LoadTracks(query)];
    if load.EmptyLoaded? || load.ErrorLoaded? then
      Outcome(before, Some(Announcement(load, query, idle)), loading)
    else
      var appended := before.tracks + Enqueued(load);
      var length := TotalLength(appended);
      if !idle || appended == [] then
        Outcome(QueueState(appended, length, before.mode), Some(Announcement(load, query, idle)), loading)
      else
        var joining := loading + [UpdateVoiceState(Some(channel))];
        if joinOk then
          Outcome(QueueState(appended[1..], length, before.mode), Some(Announcement(load, query, idle)),
                  joining + [PlayTrack(appended[0])])
        else
          Outcome(QueueState(appended[1..], length, before.mode), None, joining)
  }

  /** The steps of `playOrQueue` after its checks, on the guild's queue. */
  method LoadAndStart(queue: Queue, channel: Snowflake, query: string, load: LoadResult, idle: bool, joinOk: bool)
    returns (response: Option<string>, actions: seq<Action>)
    requires load.SearchLoaded? ==> load.results != []
    modifies queue
    ensures var r := EnqueueAndStart(old(queue.State()), channel, query, load, idle, joinOk);
      queue.State() == r.queue && response == r.response && actions == r.actions
  {
    actions := [SetVolume(40), LoadTracks(query)];
    var message: string;
    match load {
      case TrackLoaded(t) =>
        message := Announcement(load, query, idle);
        queue.Add([t]);
      case SearchLoaded(results) =>
        message := Announcement(load, query, idle);
        queue.Add([results[0]]);
      case PlaylistLoaded(name, tracks) =>
        var total := PlaylistLength(tracks);
        message := Verb(idle) + PlaylistLine(name, |tracks|, query, total);
        queue.Add(tracks);
      case EmptyLoaded =>
        return Some("No tracks found"), actions;
      case ErrorLoaded(msg) =>
        return Some("error while loading track:\n" + msg), actions;
    }
    if idle {
      var track, ok := queue.Next();
      if ok {
        actions := actions + [UpdateVoiceState(Some(channel))];
        if !joinOk {
          return None, actions;
        }
        actions := actions + [PlayTrack(track)];
      }
    }
    response := Some(message);
  }

  /**
   * What `playOrQueue` leaves behind on the guild's queue `before`. The requester must be
   * in a voice channel, and the bot in none or the same one; otherwise the reply says so
   * and nothing changes. Then the normalized query goes through `EnqueueAndStart`.
   */
  function PlayOrQueueOutcome(before: QueueState, requester: Option<Snowflake>, botChannel: Option<Snowflake>,
                              query: string, load: LoadResult, idle: bool, joinOk: bool): (r: Outcome)
    requires load.SearchLoaded? ==> load.results != []
    ensures requester.None? ==> r == Outcome(before, Some(JoinVoiceFirst), [])
    ensures requester.Some? && botChannel.Some? && botChannel != requester ==>
      r == Outcome(before, Some(BusyElsewhere), [])
    ensures requester.Some? && (botChannel.None? || botChannel == requester) ==>
      && r == EnqueueAndStart(before, requester.value, NormalizeQuery(query), load, idle, joinOk)
      && r.actions[..2] == [SetVolume(40), LoadTracks(NormalizeQuery(query))]
  {
    if requester.None? then Outcome(before, Some(JoinVoiceFirst), [])
    else if botChannel.Some? && botChannel != requester then Outcome(before, Some(BusyElsewhere), [])
    else EnqueueAndStart(before, requester.value, NormalizeQuery(query), load, idle, joinOk)
  }

  /**
   * `playOrQueue`, on the guild's queue (created if needed), as `PlayOrQueueOutcome` says:
   * a refused request changes nothing, an accepted one goes through `EnqueueAndStart`.
   * The channel check compares decimal strings, which is id equality.
   *
   * `requester` and `botChannel` are the cached voice channels (`None` when absent),
   * `load` what the audio node answered, `idle` whether the player had no track, and
   * `joinOk` whether the voice-state update went through. `response` is the embed text
   * handed to the caller's reply function, `None` when it is never called.
   */
  method PlayOrQueue(gm: GuildManager, id: Snowflake, stored: StoredGuild,
                     requester: Option<Snowflake>, botChannel: Option<Snowflake>, query: string,
                     load: LoadResult, idle: bool, joinOk: bool)
    returns (response: Option<string>, actions: seq<Action>)
    requires load.SearchLoaded? ==> load.results != []
    requires gm.Valid()
    modifies gm, gm.QueueOf(id)
    ensures gm.KeepsOthers(id)
    ensures gm.PointersOf(id, stored) == old(gm.PointersOf(id, stored))
    ensures requester.None? || (botChannel.Some? && botChannel != requester) ==> gm.guilds == old(gm.guilds)
    ensures var r := PlayOrQueueOutcome(old(gm.QueueStateOf(id)), requester, botChannel, query, load, idle, joinOk);
      gm.QueueStateOf(id) == r.queue && response == r.response && actions == r.actions
  {
    if requester.None? {
      gm.OwnChangeKeepsOthers(id);
      return Some(JoinVoiceFirst), [];
    }
    if botChannel.Some? && Decimal(botChannel.value) != Decimal(requester.value) {
      gm.OwnChangeKeepsOthers(id);
      return Some(BusyElsewhere), [];
    }
    if botChannel.Some? {
      DecimalInjective(botChannel.value, requester.value);
    }
    var q := query;
    if !UrlPatternMatches(q) {
      q := YouTubeSearchPrefix + q;
    }
    assert q == NormalizeQuery(query);
    ghost var before := gm.QueueStateOf(id);
    response, actions := LoadIntoGuild(gm, id, stored, requester.value, q, load, idle, joinOk);
    assert PlayOrQueueOutcome(before, requester, botChannel, query, load, idle, joinOk)
        == EnqueueAndStart(before, requester.value, q, load, idle, joinOk);
  }

  /** `LoadAndStart` on the queue of guild `id`, looked up (and created if needed) first. */
  method LoadIntoGuild(gm: GuildManager, id: Snowflake, stored: StoredGuild, channel: Snowflake, query: string,
                       load: LoadResult, idle: bool, joinOk: bool)
    returns (response: Option<string>, actions: seq<Action>)
    requires load.SearchLoaded? ==> load.results != []
    requires gm.Valid()
    modifies gm, gm.QueueOf(id)
    ensures gm.KeepsOthers(id)
    ensures gm.PointersOf(id, stored) == old(gm.PointersOf(id, stored))
    ensures var r := EnqueueAndStart(old(gm.QueueStateOf(id)), channel, query, load, idle, joinOk);
      && id in gm.guilds
      && gm.QueueStateOf(id) == r.queue && response == r.response && actions == r.actions
  {
    ghost var before := gm.QueueStateOf(id);
    var queue := gm.GetQueue(id, stored);
    assert queue.State() == before;
    label Found:
    response, actions := LoadAndStart(queue, channel, query, load, idle, joinOk);
    ghost var r := EnqueueAndStart(before, channel, query, load, idle, joinOk);
    assert queue.State() == r.queue && response == r.response && actions == r.actions;
    gm.OwnChangeKeepsOthers@Found(id);
  }

  // ---------------------------------------------------------------- the player channel

  /**
   * `createPlayerMessage`. `row` is the guild's stored row (`None` when it could not be
   * read) and `message` the id Discord gives the new message. A new player message is
   * created exactly when the row names no player channel or another one; then the
   * guild's in-memory pointers and the saved row both name `channel` and `message`.
   */
  method CreatePlayerMessage(gm: GuildManager, id: Snowflake, row: Option<StoredGuild>,
                             channel: Snowflake, message: Snowflake)
    returns (created: bool, saved: Option<StoredGuild>, actions: seq<Action>)
    requires gm.Valid()
    modifies gm, gm.PlayerOf(id)
    ensures gm.KeepsOthers(id)
    ensures created <==> row.Some? && row.value.playerChannelID != Some(channel)
    ensures gm.QueueStateOf(id) == old(gm.QueueStateOf(id))
    ensures !created ==> saved == row && actions == [] && gm.guilds == old(gm.guilds)
    ensures !created ==> unchanged(gm.PlayerOf(id))
    ensures created ==>
      && saved == Some(StoredGuild(Some(channel), Some(message)))
      && id in gm.guilds
      && gm.guilds[id].player.channelID == Some(channel)
      && gm.guilds[id].player.messageID == Some(message)
      && actions == [CreateMessage(channel), RefreshPlayerMessage]
  {
    if row.None? {
      return false, row, [];
    }
    if row.value.playerChannelID.Some? && row.value.playerChannelID.value == channel {
      return false, row, [];
    }
    var guildPlayer := gm.GetGuildPlayer(id, row.value);
    label Found:
    saved := Some(StoredGuild(Some(channel), Some(message)));
    guildPlayer.channelID := saved.value.playerChannelID;
    guildPlayer.messageID := saved.value.playerMessageID;
    gm.OwnChangeKeepsOthers@Found(id);
    created, actions := true, [CreateMessage(channel), RefreshPlayerMessage];
  }

  // ---------------------------------------------------------------- text to speech

  /**
   * The spoken text of `textToSpeech`: a non-zero bits amount is announced before the
   * text. The announcement reads back: the digits before the first space are the amount.
   */
  function BitsText(text: string, bits: int): (r: string)
    ensures bits == 0 ==> r == text
    ensures bits > 0 ==>
      var k := |Decimal(bits)|;
      && k < |r| && AllDigits(r[..k]) && DigitsValue(r[..k]) == bits
      && r[k..] == " bits / / / / " + text
    ensures bits < 0 ==>
      && |IntString(bits)| < |r| && r[0] == '-'
      && r[|IntString(bits)|..] == " bits / / / / " + text
  {
    if bits == 0 then text
    else
      var amount, rest := IntString(bits), " bits / / / / " + text;
      assert amount + rest == IntString(bits) + " bits / / / / " + text;
      assert (amount + rest)[..|amount|] == amount && (amount + rest)[|amount|..] == rest;
      amount + rest
  }
}
