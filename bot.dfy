/** The bot object itself (bot/bot.py): the channel and command restrictions it checks before
    every slash command, the tracks it remembers per guild for "previous track", and when it
    leaves a voice channel on its own. */
module Bot {
  import opened Wrappers
  import opened Wavelink
  import opened SettingsStore
  import Storage

  /** The commands the channel restrictions never apply to: the informational ones, the
      settings, and the restriction commands themselves. */
  const UnrestrictedCommands: set<string> := {
    "help", "invite", "support", "vote", "ping", "statistics", "debug", "settings", "dj",
    "announce", "buttons", "restrict channel", "restrict list", "restrict clear",
    "unrestrict channel", "restrictcommand", "unrestrictcommand"
  }

  /** `ChannelRestrictedError`: the check that refused the command. */
  datatype Restriction =
    | CommandElsewhere(command: string, forced: int)  // the command is pinned to another channel
    | NotWhitelisted(allowed: set<int>)               // the guild only allows these channels

  /** `command_channel_overrides.get(g, {}).get(name)`: the channel a command is pinned to. */
  function Forced(overrides: map<int, map<string, int>>, guildId: int, name: string): Option<int>
  {
    if guildId in overrides && name in overrides[guildId] then Some(overrides[guildId][name])
    else None
  }

  /** `allowed_channels.get(g, set())`: the guild's whitelist, empty when it has none. */
  function AllowedIn(allowed: map<int, set<int>>, guildId: int): set<int>
  {
    if guildId in allowed then allowed[guildId] else {}
  }

  /** The command is not pinned, or it is pinned to this channel. */
  predicate OverrideHolds(overrides: map<int, map<string, int>>, guildId: int, channelId: int,
                          name: string)
  {
    Forced(overrides, guildId, name).None? || Forced(overrides, guildId, name).value == channelId
  }

  /** The guild has no whitelist, or the whitelist holds this channel. */
  predicate WhitelistHolds(allowed: map<int, set<int>>, guildId: int, channelId: int)
  {
    AllowedIn(allowed, guildId) == {} || channelId in AllowedIn(allowed, guildId)
  }

  /** `global_interaction_check`: an interaction outside a guild or channel, without a command,
      or with an unrestricted command passes; otherwise the command's pin is checked first and
      the guild's whitelist second, and the first that fails raises. */
  function InteractionCheck(overrides: map<int, map<string, int>>, allowed: map<int, set<int>>,
                            guildId: Option<int>, channelId: Option<int>, command: Option<string>)
    : (r: Result<bool, Restriction>)
    ensures r.Success? ==> r.value
    ensures r.Success? <==>
      guildId.None? || channelId.None? || command.None? || command.value in UnrestrictedCommands ||
      (OverrideHolds(overrides, guildId.value, channelId.value, command.value) &&
       WhitelistHolds(allowed, guildId.value, channelId.value))
    ensures r.Failure? ==>
      guildId.Some? && channelId.Some? && command.Some? && command.value !in UnrestrictedCommands
    ensures r.Failure? ==>
      (r.error.CommandElsewhere? <==>
       !OverrideHolds(overrides, guildId.value, channelId.value, command.value))
    ensures r.Failure? && r.error.CommandElsewhere? ==>
      r.error.command == command.value && r.error.forced != channelId.value &&
      Forced(overrides, guildId.value, command.value) == Some(r.error.forced)
    ensures r.Failure? && r.error.NotWhitelisted? ==>
      r.error.allowed == AllowedIn(allowed, guildId.value) && r.error.allowed != {} &&
      channelId.value !in r.error.allowed
  {
    if guildId.None? || channelId.None? then Success(true)
    else if command.None? then Success(true)
    else if command.value in UnrestrictedCommands then Success(true)
    else
      var forced := Forced(overrides, guildId.value, command.value);
      if forced.Some? && channelId.value != forced.value then
        Failure(CommandElsewhere(command.value, forced.value))
      else
        var whitelist := AllowedIn(allowed, guildId.value);
        if whitelist != {} && channelId.value !in whitelist then Failure(NotWhitelisted(whitelist))
        else Success(true)
  }

  /** The channel a row of `command_restrictions` pins a command of a guild to. */
  function Row(rows: map<(int, string), int>, guildId: int, name: string): Option<int>
  {
    if (guildId, name) in rows then Some(rows[(guildId, name)]) else None
  }

  /** The in-memory overrides pin exactly the commands the table pins, to the same channels. A
      guild may keep an empty entry that the table has no rows for. */
  ghost predicate OverridesMirror(overrides: map<int, map<string, int>>,
                                  rows: map<(int, string), int>)
  {
    forall guildId, name :: Forced(overrides, guildId, name) == Row(rows, guildId, name)
  }

  /** What `load_command_restrictions_all` returns mirrors the table. */
  lemma LoadedOverridesMirror(rows: map<(int, string), int>)
    ensures OverridesMirror(Storage.RestrictionsByGuild(rows), rows)
  {
    var loaded := Storage.RestrictionsByGuild(rows);
    forall guildId, name ensures Forced(loaded, guildId, name) == Row(rows, guildId, name) {
      if (guildId, name) in rows {
        assert guildId in loaded;
      }
    }
  }

  /** The check decides from the maps in memory exactly as it would from the maps a restart
      loads from the tables, as long as the maps mirror the tables. */
  lemma {:induction false} CheckFromTables(overrides: map<int, map<string, int>>,
                                           allowed: map<int, set<int>>,
                                           restrictionRows: map<(int, string), int>,
                                           channelRows: set<(int, int)>,
                                           guildId: Option<int>, channelId: Option<int>,
                                           command: Option<string>)
    requires OverridesMirror(overrides, restrictionRows)
    requires allowed == Storage.ChannelsByGuild(channelRows)
    ensures InteractionCheck(overrides, allowed, guildId, channelId, command) ==
            InteractionCheck(Storage.RestrictionsByGuild(restrictionRows),
                             Storage.ChannelsByGuild(channelRows), guildId, channelId, command)
  {
    if guildId.Some? && command.Some? {
      var loaded := Storage.RestrictionsByGuild(restrictionRows);
      LoadedOverridesMirror(restrictionRows);
      assert Forced(overrides, guildId.value, command.value) ==
             Row(restrictionRows, guildId.value, command.value) ==
             Forced(loaded, guildId.value, command.value);
    }
  }

  // Track bookkeeping ---------------------------------------------------------------------

  /** The tracks remembered per guild: the one playing and the one before it. */
  datatype TrackMemory = TrackMemory(current: map<int, Track>, previous: map<int, Track>)

  /** `payload.original or payload.track`: the track as requested, when the node replaced it. */
  function PlayedTrack(original: Option<Track>, track: Track): Track
  {
    original.GetOr(track)
  }

  /** `on_wavelink_track_start`: the started track becomes the current one; the old current
      one becomes the previous one only when it exists and is a different track. */
  function Started(m: TrackMemory, guildId: int, track: Track): TrackMemory
  {
    var previous :=
      if guildId in m.current && m.current[guildId].identifier != track.identifier
      then m.previous[guildId := m.current[guildId]]
      else m.previous;
    TrackMemory(m.current[guildId := track], previous)
  }

  /** Each guild's previous track is a guild that also has a current track, and is not the same
      track as the current one. */
  predicate Distinct(m: TrackMemory)
  {
    forall guildId :: guildId in m.previous ==>
      guildId in m.current && m.previous[guildId].identifier != m.current[guildId].identifier
  }

  /** Starting a track keeps the previous track distinct from the current one. */
  lemma {:induction false} StartedKeepsDistinct(m: TrackMemory, guildId: int, track: Track)
    requires Distinct(m)
    ensures Distinct(Started(m, guildId, track))
  {
    var n := Started(m, guildId, track);
    forall g | g in n.previous
      ensures g in n.current && n.previous[g].identifier != n.current[g].identifier
    {
      if g != guildId {
        assert g in m.previous;
      }
    }
  }

  /** After `a` and then a different track `b`, the previous track of the guild is `a`; the
      other guilds keep what they had. */
  lemma StartedTwice(m: TrackMemory, guildId: int, a: Track, b: Track)
    requires a.identifier != b.identifier
    ensures var n := Started(Started(m, guildId, a), guildId, b);
            n.current[guildId] == b && n.previous[guildId] == a &&
            (forall g :: g != guildId ==>
               (g in n.current <==> g in m.current) && (g in n.previous <==> g in m.previous))
  {
  }

  /** Starting the same track again (a looped track) leaves the previous track as it was, so
      "back" still reaches the track before the loop. */
  lemma ReplayKeepsPrevious(m: TrackMemory, guildId: int, a: Track, again: Track)
    requires a.identifier == again.identifier
    ensures Started(Started(m, guildId, a), guildId, again).previous ==
            Started(m, guildId, a).previous
  {
  }

  /** A non-empty set has a member. */
  lemma HasMember(s: set<int>)
    requires s != {}
    ensures exists g :: g in s
  {
    if forall g :: g !in s {
      assert false;
    }
  }

  /** Putting one more loaded record shrinks the guilds still to be put by one. */
  lemma PutOneMore(base: map<int, GuildSettings>, loaded: map<int, GuildSettings>, rest: set<int>, g: int)
    requires g in loaded
    ensures (base + (loaded - rest))[g := loaded[g]] == base + (loaded - (rest - {g}))
  {
  }

  /** The loop of `setup_hook` that puts each loaded record into the settings store. */
  method PutLoaded(store: GuildSettingsStore, loaded: map<int, GuildSettings>)
    modifies store
    ensures store.data == old(store.data) + loaded
  {
    ghost var base := store.data;
    var rest := loaded.Keys;
    while rest != {}
      invariant rest <= loaded.Keys
      invariant store.data == base + (loaded - rest)
      decreases |rest|
    {
      HasMember(rest);
      var g :| g in rest;
      PutOneMore(base, loaded, rest, g);
      store.Set(g, loaded[g]);
      rest := rest - {g};
    }
    assert loaded - rest == loaded;
  }

  /** The settings loading of `setup_hook`: every guild row of the storage is put into the
      in-memory settings store, replacing what the store held for that guild; the store's
      other guilds keep their settings. */
  method LoadSettings(store: GuildSettingsStore, storage: Storage.SqliteStorage)
    modifies store
    ensures store.data.Keys == old(store.data).Keys + storage.settings.Keys
    ensures forall g :: g in storage.settings ==> store.data[g] == Storage.FromRow(storage.settings[g])
    ensures forall g :: g in old(store.data) && g !in storage.settings ==> store.data[g] == old(store.data)[g]
  {
    var loaded := storage.LoadGuildSettingsAll();
    PutLoaded(store, loaded);
  }

  /** The bot's own state. Only the maps the modelled handlers read and write are kept. */
  class MusicBot {
    var allowedChannels: map<int, set<int>>
    var commandOverrides: map<int, map<string, int>>
    var currentTrack: map<int, Track>
    var previousTrack: map<int, Track>

    ghost predicate Valid()
      reads this
    {
      Distinct(Tracks())
    }

    function Tracks(): TrackMemory
      reads this
    {
      TrackMemory(currentTrack, previousTrack)
    }

    /** The in-memory restrictions agree with the storage's tables: the whitelists exactly, the
        pins up to empty entries. */
    ghost predicate Mirrors(storage: Storage.SqliteStorage)
      reads this, storage
    {
      allowedChannels == Storage.ChannelsByGuild(storage.allowedChannels) &&
      OverridesMirror(commandOverrides, storage.restrictions)
    }

    /** `MusicBot.__init__`: no restrictions and no remembered tracks. */
    constructor ()
      ensures Valid()
      ensures allowedChannels == map[] && commandOverrides == map[]
      ensures currentTrack == map[] && previousTrack == map[]
    {
      allowedChannels := map[];
      commandOverrides := map[];
      currentTrack := map[];
      previousTrack := map[];
    }

    /** The restriction loading of `setup_hook`: both maps are read from the storage. */
    method LoadRestrictions(storage: Storage.SqliteStorage)
      modifies this
      ensures Mirrors(storage)
      ensures allowedChannels == Storage.ChannelsByGuild(storage.allowedChannels)
      ensures commandOverrides == Storage.RestrictionsByGuild(storage.restrictions)
      ensures unchanged(this`currentTrack, this`previousTrack)
    {
      allowedChannels := storage.LoadAllowedChannelsAll();
      commandOverrides := storage.LoadCommandRestrictionsAll();
      LoadedOverridesMirror(storage.restrictions);
    }

    /** The bookkeeping of `on_wavelink_track_start` for a player of guild `guildId`. */
    method OnTrackStart(guildId: int, original: Option<Track>, track: Track)
      requires Valid()
      modifies this
      ensures Valid()
      ensures Tracks() == Started(old(Tracks()), guildId, PlayedTrack(original, track))
      ensures unchanged(this`allowedChannels, this`commandOverrides)
    {
      var current := PlayedTrack(original, track);
      StartedKeepsDistinct(Tracks(), guildId, current);
      if guildId in currentTrack && currentTrack[guildId].identifier != current.identifier {
        previousTrack := previousTrack[guildId := currentTrack[guildId]];
      }
      currentTrack := currentTrack[guildId := current];
    }

    /** `get_previous_track`: the guild's previous track, which is never the one playing. */
    function PreviousTrack(guildId: int): (r: Option<Track>)
      reads this
      ensures r.Some? <==> guildId in previousTrack
      ensures r.Some? ==> r.value == previousTrack[guildId]
      ensures r.Some? && Valid() ==>
        guildId in currentTrack && r.value.identifier != currentTrack[guildId].identifier
    {
      if guildId in previousTrack then Some(previousTrack[guildId]) else None
    }
  }

  // Leaving voice on its own ----------------------------------------------------------------

  /** `on_wavelink_inactive_player`: a player of a guild leaves unless the guild is 24/7, whose
      settings are read (and created) first; a disconnect that raises leaves it connected. */
  method OnInactivePlayer(settings: GuildSettingsStore, guildId: Option<int>, p: Player,
                          disconnectOk: bool) returns (left: bool)
    modifies settings, p
    ensures guildId.None? ==> !left && unchanged(settings)
    ensures guildId.Some? ==>
      var (s, after) := Lookup(old(settings.data), guildId.value, settings.Created());
      settings.data == after && (left <==> !s.stay247 && disconnectOk)
    ensures left ==> p.channel == None
    ensures !left ==> unchanged(p)
    ensures unchanged(p`queue, p`mode, p`autoplay, p`volume, p`current)
    ensures unchanged(p`position, p`paused, p`filters, p`inactiveTimeout)
  {
    if guildId.None? {
      return false;
    }
    var s := settings.Get(guildId.value);
    if s.stay247 {
      return false;
    }
    if !disconnectOk {
      return false;
    }
    p.Disconnect();
    left := true;
  }

  /** `on_voice_state_update` for a member who left channel `before` of guild `guildId`: the
      guild's player `p` (null when the guild has none) leaves only when it sits in that
      channel, no human is left in it, and the guild is not 24/7. The settings are read (and
      created) only once the first three hold. */
  method OnVoiceStateUpdate(settings: GuildSettingsStore, guildId: int, before: Option<int>,
                            p: Player?, humansLeft: bool, disconnectOk: bool) returns (left: bool)
    modifies settings, p
    ensures var reached := before.Some? && p != null && old(p.channel) == before && !humansLeft;
      (!reached ==> !left && unchanged(settings)) &&
      (reached ==>
         var (s, after) := Lookup(old(settings.data), guildId, settings.Created());
         settings.data == after && (left <==> !s.stay247 && disconnectOk))
    ensures left ==> p != null && p.channel == None
    ensures !left && p != null ==> unchanged(p)
    ensures p != null ==> unchanged(p`queue, p`mode, p`autoplay, p`volume, p`current)
    ensures p != null ==> unchanged(p`position, p`paused, p`filters, p`inactiveTimeout)
  {
    if before.None? || p == null {
      return false;
    }
    if p.channel != before {
      return false;
    }
    if humansLeft {
      return false;
    }
    var s := settings.Get(guildId);
    if s.stay247 {
      return false;
    }
    if !disconnectOk {
      return false;
    }
    p.Disconnect();
    left := true;
  }
}
