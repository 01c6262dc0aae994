/** The in-memory guild settings (bot/storage/memory.py): a per-guild record with its
    defaults, and a store that creates the record the first time a guild is asked for. */
module SettingsStore {
  import opened Wrappers

  /** `GuildSettings`. In the source it is a mutable record that callers change in place after
      `get`; here it is a value, and such a change is a `Get` followed by a `Set`. */
  datatype GuildSettings = GuildSettings(
    volumeDefault: int,
    stay247: bool,
    announceEnabled: bool,
    announceChannelId: Option<int>,
    djRoleId: Option<int>,
    filtersPreset: string,
    buttonsEnabled: bool)

  /** The record `get` creates: the store's default volume and announce flag, 24/7 off, no
      announce channel, no DJ role, filters "off", buttons on. */
  function Defaults(volumeDefault: int, announceEnabled: bool): (s: GuildSettings)
    ensures s.volumeDefault == volumeDefault && s.announceEnabled == announceEnabled
    ensures !s.stay247 && s.buttonsEnabled && s.filtersPreset == "off"
    ensures s.announceChannelId == None && s.djRoleId == None
  {
    GuildSettings(volumeDefault, false, announceEnabled, None, None, "off", true)
  }

  /** What `get` returns and what the store holds afterwards, when `created` is the record a
      missing guild receives. */
  function Lookup(data: map<int, GuildSettings>, guildId: int, created: GuildSettings)
    : (r: (GuildSettings, map<int, GuildSettings>))
  {
    if guildId in data then (data[guildId], data) else (created, data[guildId := created])
  }

  /** After `get` the guild has exactly the returned record, no other guild changed, and a
      guild already present kept its record. */
  lemma LookupStores(data: map<int, GuildSettings>, guildId: int, created: GuildSettings)
    ensures Lookup(data, guildId, created).1 == data[guildId := Lookup(data, guildId, created).0]
    ensures guildId in data ==> Lookup(data, guildId, created) == (data[guildId], data)
    ensures guildId !in data ==> Lookup(data, guildId, created).0 == created
  {
  }

  /** A second `get` returns the same record and changes nothing. */
  lemma LookupTwice(data: map<int, GuildSettings>, guildId: int, created: GuildSettings)
    ensures var (s, after) := Lookup(data, guildId, created);
            Lookup(after, guildId, created) == (s, after)
  {
  }

  /** `set(g, s)` followed by `get(g)` returns `s`; `get` of any other guild is as before. */
  lemma SetThenLookup(data: map<int, GuildSettings>, guildId: int, s: GuildSettings,
                      other: int, created: GuildSettings)
    ensures Lookup(data[guildId := s], guildId, created) == (s, data[guildId := s])
    ensures other != guildId ==>
      Lookup(data[guildId := s], other, created).0 == Lookup(data, other, created).0
  {
  }

  /** `GuildSettingsStore`: the settings of every guild seen so far. */
  class GuildSettingsStore {
    const defaultVolume: int
    const defaultAnnounceEnabled: bool
    var data: map<int, GuildSettings>

    constructor (defaultVolume: int, defaultAnnounceEnabled: bool)
      ensures this.defaultVolume == defaultVolume
      ensures this.defaultAnnounceEnabled == defaultAnnounceEnabled
      ensures data == map[]
    {
      this.defaultVolume := defaultVolume;
      this.defaultAnnounceEnabled := defaultAnnounceEnabled;
      data := map[];
    }

    /** The record a guild not seen before receives. */
    function Created(): GuildSettings
      reads this
    {
      Defaults(defaultVolume, defaultAnnounceEnabled)
    }

    /** `get`: the guild's record, created with the defaults and stored when missing. */
    method Get(guildId: int) returns (s: GuildSettings)
      modifies this
      ensures (s, data) == Lookup(old(data), guildId, Created())
    {
      if guildId in data {
        s := data[guildId];
      } else {
        s := Created();
        data := data[guildId := s];
      }
    }

    /** `set`: stores `settings` for the guild, replacing any record it had. */
    method Set(guildId: int, settings: GuildSettings)
      modifies this
      ensures data == old(data)[guildId := settings]
    {
      data := data[guildId := settings];
    }

    /** `all`: a copy of every record; later changes to the store do not reach it. */
    method All() returns (copy: map<int, GuildSettings>)
      ensures copy == data
    {
      copy := data;
    }
  }
}
