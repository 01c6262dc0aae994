/** The restriction commands (bot/cogs/restrict.py): `restrict channel`, `restrict clear`,
    `unrestrict channel`, `restrictcommand` and `unrestrictcommand`. Each writes the storage
    first and then updates the bot's in-memory maps, which the interaction check reads. */
module Restrict {
  import opened Wrappers
  import opened Strings
  import opened Helpers
  import Storage
  import Bot

  // Resolving a command name ----------------------------------------------------------------

  /** The first of `names` whose lower-case spelling is `lowered`. */
  function FirstCaseMatch(names: seq<string>, lowered: string): (r: Option<string>)
    ensures r.Some? ==> r.value in names && Lower(r.value) == lowered
    ensures r.None? <==> forall q :: q in names ==> Lower(q) != lowered
  {
    if names == [] then None
    else if Lower(names[0]) == lowered then Some(names[0])
    else
      var rest := FirstCaseMatch(names[1..], lowered);
      assert forall q :: q in names ==> q == names[0] || q in names[1..];
      rest
  }

  /** A match at `i` with none before it is the first match. */
  lemma {:induction false} FirstCaseMatchAt(names: seq<string>, lowered: string, i: nat)
    requires i < |names| && Lower(names[i]) == lowered
    requires forall k :: 0 <= k < i ==> Lower(names[k]) != lowered
    ensures FirstCaseMatch(names, lowered) == Some(names[i])
    decreases i
  {
    if i > 0 {
      FirstCaseMatchAt(names[1..], lowered, i - 1);
    }
  }

  /** `_resolve_command_qualified_name` over the qualified names of the command tree in walk
      order: a blank name resolves to nothing, a name spelled exactly as a command is that
      command, and otherwise the first command spelled the same up to case. */
  function Resolution(names: seq<string>, raw: string): (r: Option<string>)
    ensures r.Some? ==> r.value in names && r.value != [] && Lower(r.value) == Lower(Strip(raw))
    ensures r.None? <==> Strip(raw) == [] || forall q :: q in names ==> Lower(q) != Lower(Strip(raw))
    ensures Strip(raw) != [] && Strip(raw) in names ==> r == Some(Strip(raw))
  {
    var name := Strip(raw);
    if name == [] then None
    else if name in names then Some(name)
    else
      var r := FirstCaseMatch(names, Lower(name));
      assert r.Some? ==> |r.value| == |Lower(r.value)| == |Lower(name)| == |name|;
      r
  }

  /** Without an exact spelling, the case of what the user typed does not matter. */
  lemma ResolutionIgnoresCase(names: seq<string>, a: string, b: string)
    requires Lower(Strip(a)) == Lower(Strip(b))
    requires Strip(a) !in names && Strip(b) !in names
    ensures Resolution(names, a) == Resolution(names, b)
  {
  }

  /** A resolved name, typed again, resolves to itself, when command names carry no
      surrounding spaces. */
  lemma ResolutionStable(names: seq<string>, raw: string)
    requires forall q :: q in names ==> Strip(q) == q
    requires Resolution(names, raw).Some?
    ensures Resolution(names, Resolution(names, raw).value) == Resolution(names, raw)
  {
  }

  /** The loop of `_resolve_command_qualified_name`. */
  method ResolveCommand(names: seq<string>, raw: string) returns (r: Option<string>)
    ensures r == Resolution(names, raw)
  {
    var name := Strip(raw);
    if name == [] {
      return None;
    }
    if name in names {
      return Some(name);
    }
    var lowered := Lower(name);
    for i := 0 to |names|
      invariant forall k :: 0 <= k < i ==> Lower(names[k]) != lowered
    {
      if Lower(names[i]) == lowered {
        FirstCaseMatchAt(names, lowered, i);
        return Some(names[i]);
      }
    }
    return None;
  }

  // The in-memory maps ----------------------------------------------------------------------

  /** `allowed_channels.setdefault(g, set()).add(c)`. */
  function WithChannel(allowed: map<int, set<int>>, guildId: int, channelId: int)
    : map<int, set<int>>
  {
    allowed[guildId := Bot.AllowedIn(allowed, guildId) + {channelId}]
  }

  /** The update of `unrestrict channel`: a non-empty set loses the channel, and the guild's
      entry goes once its set is empty. */
  function WithoutChannel(allowed: map<int, set<int>>, guildId: int, channelId: int)
    : map<int, set<int>>
  {
    if guildId in allowed && allowed[guildId] != {} then
      if allowed[guildId] - {channelId} == {} then allowed - {guildId}
      else allowed[guildId := allowed[guildId] - {channelId}]
    else allowed
  }

  /** `allowed_channels.pop(g, None)`. */
  function WithoutGuild(allowed: map<int, set<int>>, guildId: int): map<int, set<int>>
  {
    allowed - {guildId}
  }

  /** `command_channel_overrides.setdefault(g, {})[name] = c`. */
  function WithPin(overrides: map<int, map<string, int>>, guildId: int, name: string,
                   channelId: int): map<int, map<string, int>>
  {
    var pins := if guildId in overrides then overrides[guildId] else map[];
    overrides[guildId := pins[name := channelId]]
  }

  /** The update of `unrestrictcommand`: a non-empty entry loses the command; the guild's entry
      stays even when it becomes empty. */
  function WithoutPin(overrides: map<int, map<string, int>>, guildId: int, name: string)
    : map<int, map<string, int>>
  {
    if guildId in overrides && overrides[guildId] != map[] then
      overrides[guildId := overrides[guildId] - {name}]
    else overrides
  }

  /** A map that agrees with the rows guild by guild and channel by channel is the grouping of
      the rows. */
  lemma ChannelsGrouped(allowed: map<int, set<int>>, rows: set<(int, int)>)
    requires forall g :: g in allowed <==> exists c :: (g, c) in rows
    requires forall g, c :: g in allowed ==> (c in allowed[g] <==> (g, c) in rows)
    ensures allowed == Storage.ChannelsByGuild(rows)
  {
    var grouped := Storage.ChannelsByGuild(rows);
    forall g | g in allowed ensures allowed[g] == grouped[g] {
      assert forall c :: c in allowed[g] <==> c in grouped[g];
    }
    assert allowed.Keys == grouped.Keys;
  }

  /** `restrict channel` keeps the whitelist map equal to the grouping of the table. */
  lemma {:induction false} WithChannelMirrors(allowed: map<int, set<int>>, rows: set<(int, int)>,
                                              guildId: int, channelId: int)
    requires allowed == Storage.ChannelsByGuild(rows)
    ensures WithChannel(allowed, guildId, channelId) ==
            Storage.ChannelsByGuild(rows + {(guildId, channelId)})
  {
    var after := WithChannel(allowed, guildId, channelId);
    var rows' := rows + {(guildId, channelId)};
    forall g ensures g in after <==> exists c :: (g, c) in rows' {
      if g == guildId {
        assert (g, channelId) in rows';
      } else if g in after {
        var c :| (g, c) in rows;
        assert (g, c) in rows';
      }
    }
    forall g, c | g in after ensures c in after[g] <==> (g, c) in rows' {
      if g == guildId && guildId !in allowed {
        assert (g, c) !in rows;
      }
    }
    ChannelsGrouped(after, rows');
  }

  /** `unrestrict channel` keeps the whitelist map equal to the grouping of the table. */
  lemma {:induction false} WithoutChannelMirrors(allowed: map<int, set<int>>,
                                                 rows: set<(int, int)>,
                                                 guildId: int, channelId: int)
    requires allowed == Storage.ChannelsByGuild(rows)
    ensures WithoutChannel(allowed, guildId, channelId) ==
            Storage.ChannelsByGuild(rows - {(guildId, channelId)})
  {
    var after := WithoutChannel(allowed, guildId, channelId);
    var rows' := rows - {(guildId, channelId)};
    forall g ensures g in after <==> exists c :: (g, c) in rows' {
      if exists c :: (g, c) in rows' {
        var c :| (g, c) in rows';
        assert c in allowed[g];
        if g == guildId {
          assert c in allowed[g] - {channelId};
        }
      } else if g == guildId && g in allowed {
        assert allowed[g] - {channelId} == {};
      }
    }
    forall g, c | g in after ensures c in after[g] <==> (g, c) in rows' {
      assert g in allowed;
    }
    ChannelsGrouped(after, rows');
  }

  /** `restrict clear` keeps the whitelist map equal to the grouping of the table. */
  lemma {:induction false} WithoutGuildMirrors(allowed: map<int, set<int>>, rows: set<(int, int)>,
                                               guildId: int)
    requires allowed == Storage.ChannelsByGuild(rows)
    ensures WithoutGuild(allowed, guildId) ==
            Storage.ChannelsByGuild(set p | p in rows && p.0 != guildId)
  {
    var after := WithoutGuild(allowed, guildId);
    var rows' := set p | p in rows && p.0 != guildId;
    forall g ensures g in after <==> exists c :: (g, c) in rows' {
      if g in after {
        var c :| (g, c) in rows;
        assert (g, c) in rows';
      }
    }
    ChannelsGrouped(after, rows');
  }

  /** `restrictcommand` keeps the pins mirroring the table. */
  lemma WithPinMirrors(overrides: map<int, map<string, int>>, rows: map<(int, string), int>,
                       guildId: int, name: string, channelId: int)
    requires Bot.OverridesMirror(overrides, rows)
    ensures Bot.OverridesMirror(WithPin(overrides, guildId, name, channelId),
                                rows[(guildId, name) := channelId])
  {
    var after := WithPin(overrides, guildId, name, channelId);
    var rows' := rows[(guildId, name) := channelId];
    forall g, n ensures Bot.Forced(after, g, n) == Bot.Row(rows', g, n) {
      assert Bot.Forced(overrides, g, n) == Bot.Row(rows, g, n);
    }
  }

  /** `unrestrictcommand` keeps the pins mirroring the table. */
  lemma WithoutPinMirrors(overrides: map<int, map<string, int>>, rows: map<(int, string), int>,
                          guildId: int, name: string)
    requires Bot.OverridesMirror(overrides, rows)
    ensures Bot.OverridesMirror(WithoutPin(overrides, guildId, name), rows - {(guildId, name)})
  {
    var after := WithoutPin(overrides, guildId, name);
    var rows' := rows - {(guildId, name)};
    forall g, n ensures Bot.Forced(after, g, n) == Bot.Row(rows', g, n) {
      assert Bot.Forced(overrides, g, n) == Bot.Row(rows, g, n);
    }
  }

  /** Restricting a channel twice is restricting it once. */
  lemma WithChannelIdempotent(allowed: map<int, set<int>>, guildId: int, channelId: int)
    ensures WithChannel(WithChannel(allowed, guildId, channelId), guildId, channelId) ==
            WithChannel(allowed, guildId, channelId)
  {
    var once := WithChannel(allowed, guildId, channelId);
    assert once[guildId] + {channelId} == once[guildId];
  }

  /** Unrestricting a channel undoes restricting it, when the channel was not allowed before and
      no guild kept an empty set. */
  lemma WithoutChannelUndoes(allowed: map<int, set<int>>, guildId: int, channelId: int)
    requires forall g :: g in allowed ==> allowed[g] != {}
    requires channelId !in Bot.AllowedIn(allowed, guildId)
    ensures WithoutChannel(WithChannel(allowed, guildId, channelId), guildId, channelId) == allowed
  {
    var once := WithChannel(allowed, guildId, channelId);
    assert once[guildId] - {channelId} == Bot.AllowedIn(allowed, guildId);
    if guildId !in allowed {
      assert once - {guildId} == allowed;
    } else {
      assert allowed[guildId := allowed[guildId]] == allowed;
    }
  }

  /** After `restrictcommand name c`, the command is refused in every other channel of the
      guild, naming `c`, unless it is one of the unrestricted commands. */
  lemma PinnedElsewhereRefused(overrides: map<int, map<string, int>>, allowed: map<int, set<int>>,
                               guildId: int, name: string, pinned: int, channelId: int)
    requires name !in Bot.UnrestrictedCommands && channelId != pinned
    ensures Bot.InteractionCheck(WithPin(overrides, guildId, name, pinned), allowed,
                                 Some(guildId), Some(channelId), Some(name)) ==
            Failure(Bot.CommandElsewhere(name, pinned))
  {
  }

  /** `unrestrictcommand` unpins that command of that guild and no other. */
  lemma WithoutPinOnlyThat(overrides: map<int, map<string, int>>, guildId: int, name: string,
                           g: int, n: string)
    ensures Bot.Forced(WithoutPin(overrides, guildId, name), g, n) ==
            if g == guildId && n == name then None else Bot.Forced(overrides, g, n)
  {
  }

  /** After `restrict clear`, no channel of the guild is refused by the whitelist. */
  lemma ClearedWhitelistHolds(allowed: map<int, set<int>>, guildId: int, channelId: int)
    ensures Bot.WhitelistHolds(WithoutGuild(allowed, guildId), guildId, channelId)
  {
  }

  // The commands ----------------------------------------------------------------------------

  /** What a restriction command answers. */
  datatype Reply =
    | NotInServer      // "only in a server"
    | NoPermission     // the user is not an admin
    | UnknownCommand   // the command name did not resolve
    | Done

  /** The checks every restriction command makes first: a guild, then an admin. */
  function Gate(guildId: Option<int>, member: Option<Member>): (r: Option<Reply>)
    ensures r.None? <==> InGuild(guildId) && IsAdmin(member)
    ensures !InGuild(guildId) ==> r == Some(NotInServer)
    ensures InGuild(guildId) && !IsAdmin(member) ==> r == Some(NoPermission)
  {
    if !InGuild(guildId) then Some(NotInServer)
    else if !IsAdmin(member) then Some(NoPermission)
    else None
  }

  /** `restrict channel`: the channel joins the guild's whitelist, in the table and in memory. */
  method RestrictChannel(bot: Bot.MusicBot, storage: Storage.SqliteStorage, guildId: Option<int>,
                         member: Option<Member>, channelId: int) returns (reply: Reply)
    requires storage.Valid()
    modifies bot, storage
    ensures storage.Valid()
    ensures Gate(guildId, member).Some? ==>
      reply == Gate(guildId, member).value && unchanged(bot) && unchanged(storage)
    ensures Gate(guildId, member).None? ==>
      reply == Done &&
      storage.allowedChannels == old(storage.allowedChannels) + {(guildId.value, channelId)} &&
      bot.allowedChannels == WithChannel(old(bot.allowedChannels), guildId.value, channelId)
    ensures old(bot.Mirrors(storage)) ==> bot.Mirrors(storage)
    ensures unchanged(bot`commandOverrides, bot`currentTrack, bot`previousTrack)
    ensures unchanged(storage`settings, storage`restrictions, storage`liked, storage`playlists)
    ensures unchanged(storage`items, storage`nextPlaylistId)
  {
    var refused := Gate(guildId, member);
    if refused.Some? {
      return refused.value;
    }
    ghost var mirrored := bot.Mirrors(storage);
    ghost var rows := storage.allowedChannels;
    var g := guildId.value;
    storage.AddAllowedChannel(g, channelId);
    bot.allowedChannels := WithChannel(bot.allowedChannels, g, channelId);
    if mirrored {
      WithChannelMirrors(old(bot.allowedChannels), rows, g, channelId);
    }
    reply := Done;
  }

  /** `restrict clear`: the guild's whitelist goes, from the table and from memory. Its pinned
      commands stay. */
  method ClearChannels(bot: Bot.MusicBot, storage: Storage.SqliteStorage, guildId: Option<int>,
                       member: Option<Member>) returns (reply: Reply)
    requires storage.Valid()
    modifies bot, storage
    ensures storage.Valid()
    ensures Gate(guildId, member).Some? ==>
      reply == Gate(guildId, member).value && unchanged(bot) && unchanged(storage)
    ensures Gate(guildId, member).None? ==>
      reply == Done &&
      storage.allowedChannels == (set p | p in old(storage.allowedChannels) && p.0 != guildId.value) &&
      bot.allowedChannels == WithoutGuild(old(bot.allowedChannels), guildId.value)
    ensures old(bot.Mirrors(storage)) ==> bot.Mirrors(storage)
    ensures unchanged(bot`commandOverrides, bot`currentTrack, bot`previousTrack)
    ensures unchanged(storage`settings, storage`restrictions, storage`liked, storage`playlists)
    ensures unchanged(storage`items, storage`nextPlaylistId)
  {
    var refused := Gate(guildId, member);
    if refused.Some? {
      return refused.value;
    }
    ghost var mirrored := bot.Mirrors(storage);
    ghost var rows := storage.allowedChannels;
    var g := guildId.value;
    storage.ClearAllowedChannels(g);
    bot.allowedChannels := WithoutGuild(bot.allowedChannels, g);
    if mirrored {
      WithoutGuildMirrors(old(bot.allowedChannels), rows, g);
    }
    reply := Done;
  }

  /** `unrestrict channel`: the channel leaves the guild's whitelist, in the table and in
      memory. */
  method UnrestrictChannel(bot: Bot.MusicBot, storage: Storage.SqliteStorage,
                           guildId: Option<int>, member: Option<Member>, channelId: int)
    returns (reply: Reply)
    requires storage.Valid()
    modifies bot, storage
    ensures storage.Valid()
    ensures Gate(guildId, member).Some? ==>
      reply == Gate(guildId, member).value && unchanged(bot) && unchanged(storage)
    ensures Gate(guildId, member).None? ==>
      reply == Done &&
      storage.allowedChannels == old(storage.allowedChannels) - {(guildId.value, channelId)} &&
      bot.allowedChannels == WithoutChannel(old(bot.allowedChannels), guildId.value, channelId)
    ensures old(bot.Mirrors(storage)) ==> bot.Mirrors(storage)
    ensures unchanged(bot`commandOverrides, bot`currentTrack, bot`previousTrack)
    ensures unchanged(storage`settings, storage`restrictions, storage`liked, storage`playlists)
    ensures unchanged(storage`items, storage`nextPlaylistId)
  {
    var refused := Gate(guildId, member);
    if refused.Some? {
      return refused.value;
    }
    ghost var mirrored := bot.Mirrors(storage);
    ghost var rows := storage.allowedChannels;
    var g := guildId.value;
    storage.RemoveAllowedChannel(g, channelId);
    bot.allowedChannels := WithoutChannel(bot.allowedChannels, g, channelId);
    if mirrored {
      WithoutChannelMirrors(old(bot.allowedChannels), rows, g, channelId);
    }
    reply := Done;
  }

  /** `restrictcommand`: the command the name resolves to among `names` (the qualified names of
      the command tree in walk order) is pinned to the channel, in the table and in memory. */
  method RestrictCommand(bot: Bot.MusicBot, storage: Storage.SqliteStorage, names: seq<string>,
                         guildId: Option<int>, member: Option<Member>, command: string,
                         channelId: int) returns (reply: Reply)
    requires storage.Valid()
    modifies bot, storage
    ensures storage.Valid()
    ensures Gate(guildId, member).Some? ==>
      reply == Gate(guildId, member).value && unchanged(bot) && unchanged(storage)
    ensures Gate(guildId, member).None? && Resolution(names, command).None? ==>
      reply == UnknownCommand && unchanged(bot) && unchanged(storage)
    ensures Gate(guildId, member).None? && Resolution(names, command).Some? ==>
      var name := Resolution(names, command).value;
      reply == Done &&
      storage.restrictions == old(storage.restrictions)[(guildId.value, name) := channelId] &&
      bot.commandOverrides == WithPin(old(bot.commandOverrides), guildId.value, name, channelId)
    ensures old(bot.Mirrors(storage)) ==> bot.Mirrors(storage)
    ensures unchanged(bot`allowedChannels, bot`currentTrack, bot`previousTrack)
    ensures unchanged(storage`settings, storage`allowedChannels, storage`liked, storage`playlists)
    ensures unchanged(storage`items, storage`nextPlaylistId)
  {
    var refused := Gate(guildId, member);
    if refused.Some? {
      return refused.value;
    }
    var qualified := ResolveCommand(names, command);
    if qualified.None? {
      return UnknownCommand;
    }
    ghost var mirrored := bot.Mirrors(storage);
    ghost var rows := storage.restrictions;
    var g := guildId.value;
    storage.SetCommandRestriction(g, qualified.value, channelId);
    bot.commandOverrides := WithPin(bot.commandOverrides, g, qualified.value, channelId);
    if mirrored {
      WithPinMirrors(old(bot.commandOverrides), rows, g, qualified.value, channelId);
    }
    reply := Done;
  }

  /** `unrestrictcommand`: the command the name resolves to is unpinned, in the table and in
      memory. */
  method UnrestrictCommand(bot: Bot.MusicBot, storage: Storage.SqliteStorage, names: seq<string>,
                           guildId: Option<int>, member: Option<Member>, command: string)
    returns (reply: Reply)
    requires storage.Valid()
    modifies bot, storage
    ensures storage.Valid()
    ensures Gate(guildId, member).Some? ==>
      reply == Gate(guildId, member).value && unchanged(bot) && unchanged(storage)
    ensures Gate(guildId, member).None? && Resolution(names, command).None? ==>
      reply == UnknownCommand && unchanged(bot) && unchanged(storage)
    ensures Gate(guildId, member).None? && Resolution(names, command).Some? ==>
      var name := Resolution(names, command).value;
      reply == Done &&
      storage.restrictions == old(storage.restrictions) - {(guildId.value, name)} &&
      bot.commandOverrides == WithoutPin(old(bot.commandOverrides), guildId.value, name)
    ensures old(bot.Mirrors(storage)) ==> bot.Mirrors(storage)
    ensures unchanged(bot`allowedChannels, bot`currentTrack, bot`previousTrack)
    ensures unchanged(storage`settings, storage`allowedChannels, storage`liked, storage`playlists)
    ensures unchanged(storage`items, storage`nextPlaylistId)
  {
    var refused := Gate(guildId, member);
    if refused.Some? {
      return refused.value;
    }
    var qualified := ResolveCommand(names, command);
    if qualified.None? {
      return UnknownCommand;
    }
    ghost var mirrored := bot.Mirrors(storage);
    ghost var rows := storage.restrictions;
    var g := guildId.value;
    storage.ClearCommandRestriction(g, qualified.value);
    bot.commandOverrides := WithoutPin(bot.commandOverrides, g, qualified.value);
    if mirrored {
      WithoutPinMirrors(old(bot.commandOverrides), rows, g, qualified.value);
    }
    reply := Done;
  }
}
