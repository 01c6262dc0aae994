/** The bot's SQLite persistence (bot/storage/sqlite_storage.py), modelled by the contents of its
    tables: guild settings, allowed channels, command restrictions, liked tracks and playlists
    with their items. Each method changes the tables as its SQL statements do. */
module Storage {
  import opened Wrappers
  import opened Wavelink
  import opened SettingsStore
  import opened Seqs

  /** `MAX_LIKED_PER_USER`: liked tracks kept per user and guild. */
  const MaxLikedPerUser: nat := 200
  /** `MAX_PLAYLIST_ITEMS`: tracks a playlist may hold. */
  const MaxPlaylistItems: nat := 500
  /** `DEFAULT_LIKED_TTL_DAYS`: the age in days past which `prune_old_liked` deletes a row. */
  const DefaultLikedTtlDays: int := 365
  const SecondsPerDay: int := 86400

  // ---------------------------------------------------------------------------------------
  // guild_settings
  // ---------------------------------------------------------------------------------------

  /** A `guild_settings` row: booleans are stored as integers. */
  datatype SettingsRow = SettingsRow(
    volumeDefault: int,
    stay247: int,
    announceEnabled: int,
    announceChannelId: Option<int>,
    djRoleId: Option<int>,
    filtersPreset: string,
    buttonsEnabled: int)

  /** `1 if b else 0`. */
  function Flag(b: bool): (v: int)
    ensures v == 1 <==> b
    ensures v == 0 <==> !b
  {
    if b then 1 else 0
  }

  /** The row `upsert_guild_settings` writes for a record. */
  function ToRow(s: GuildSettings): (row: SettingsRow)
    ensures row.volumeDefault == s.volumeDefault && row.filtersPreset == s.filtersPreset
    ensures row.announceChannelId == s.announceChannelId && row.djRoleId == s.djRoleId
    ensures row.stay247 == Flag(s.stay247) && row.announceEnabled == Flag(s.announceEnabled)
    ensures row.buttonsEnabled == Flag(s.buttonsEnabled)
  {
    SettingsRow(s.volumeDefault, Flag(s.stay247), Flag(s.announceEnabled), s.announceChannelId,
                s.djRoleId, s.filtersPreset, Flag(s.buttonsEnabled))
  }

  /** The record `load_guild_settings_all` builds from a row: `bool(int(x))` for the flags and
      `filters_preset or "off"` for the preset. */
  function FromRow(row: SettingsRow): (s: GuildSettings)
    ensures s.volumeDefault == row.volumeDefault
    ensures s.stay247 <==> row.stay247 != 0
    ensures s.announceEnabled <==> row.announceEnabled != 0
    ensures s.buttonsEnabled <==> row.buttonsEnabled != 0
    ensures s.announceChannelId == row.announceChannelId && s.djRoleId == row.djRoleId
    ensures s.filtersPreset == (if row.filtersPreset == "" then "off" else row.filtersPreset)
  {
    GuildSettings(row.volumeDefault, row.stay247 != 0, row.announceEnabled != 0,
                  row.announceChannelId, row.djRoleId,
                  if row.filtersPreset == "" then "off" else row.filtersPreset,
                  row.buttonsEnabled != 0)
  }

  /** A stored record loads back as it was, except that an empty preset comes back as "off". */
  lemma SettingsRoundTrip(s: GuildSettings)
    ensures s.filtersPreset != "" ==> FromRow(ToRow(s)) == s
    ensures s.filtersPreset == "" ==> FromRow(ToRow(s)) == s.(filtersPreset := "off")
  {
  }

  // ---------------------------------------------------------------------------------------
  // liked_tracks
  // ---------------------------------------------------------------------------------------

  /** A `liked_tracks` row; its key is guild, user and track identifier. */
  datatype LikedRow = LikedRow(guildId: int, userId: int, track: Track, createdAt: int)

  predicate HasKey(r: LikedRow, guildId: int, userId: int, identifier: string)
  {
    r.guildId == guildId && r.userId == userId && r.track.identifier == identifier
  }

  function DifferentKeys(): (LikedRow, LikedRow) -> bool
  {
    (a: LikedRow, b: LikedRow) => !HasKey(b, a.guildId, a.userId, a.track.identifier)
  }

  /** The primary key holds: no two rows share guild, user and identifier. */
  predicate UniqueKeys(rows: seq<LikedRow>)
  {
    Pairwise(rows, DifferentKeys())
  }

  function OfUser(guildId: int, userId: int): LikedRow -> bool
  {
    (r: LikedRow) => r.guildId == guildId && r.userId == userId
  }

  /** The rows of one user in one guild, in insertion order. */
  function UserLiked(rows: seq<LikedRow>, guildId: int, userId: int): seq<LikedRow>
  {
    Filter(rows, OfUser(guildId, userId))
  }

  function NotOfUser(guildId: int, userId: int): LikedRow -> bool
  {
    (r: LikedRow) => !(r.guildId == guildId && r.userId == userId)
  }

  function CreatedSince(cutoff: int): LikedRow -> bool
  {
    (r: LikedRow) => r.createdAt >= cutoff
  }

  function Liked(rows: seq<LikedRow>, guildId: int, userId: int, identifier: string): bool
  {
    exists i :: 0 <= i < |rows| && HasKey(rows[i], guildId, userId, identifier)
  }

  function LikedAt(): LikedRow -> int
  {
    (r: LikedRow) => r.createdAt
  }

  /** `ORDER BY created_at ASC`: the rows oldest first; rows with equal timestamps keep their
      insertion order. */
  function OldestFirst(rows: seq<LikedRow>): seq<LikedRow>
  {
    SortBy(rows, LikedAt())
  }

  /** The rows `_enforce_liked_limit` deletes: the user's oldest rows beyond the limit. */
  function LikedExcess(rows: seq<LikedRow>, guildId: int, userId: int): (victims: seq<LikedRow>)
  {
    var mine := UserLiked(rows, guildId, userId);
    if |mine| <= MaxLikedPerUser then [] else OldestFirst(mine)[..|mine| - MaxLikedPerUser]
  }

  function NotIn(victims: set<LikedRow>): LikedRow -> bool
  {
    (r: LikedRow) => r !in victims
  }

  /** The table after `_enforce_liked_limit(guild, user)`. */
  function EnforceLiked(rows: seq<LikedRow>, guildId: int, userId: int): seq<LikedRow>
  {
    Filter(rows, NotIn(Elements(LikedExcess(rows, guildId, userId))))
  }

  lemma UniqueKeysNoRepeats(rows: seq<LikedRow>)
    requires UniqueKeys(rows)
    ensures NoRepeats(rows)
  {
    forall i, j | 0 <= i < j < |rows| ensures rows[i] != rows[j] {
      assert DifferentKeys()(rows[i], rows[j]);
    }
  }

  /** After the limit is enforced the user keeps `min(count, 200)` rows, every row kept is at
      least as new as every row deleted, and the other users' rows are untouched. */
  lemma EnforceLikedKeepsNewest(rows: seq<LikedRow>, guildId: int, userId: int)
    requires UniqueKeys(rows)
    ensures var mine := UserLiked(rows, guildId, userId);
            |UserLiked(EnforceLiked(rows, guildId, userId), guildId, userId)|
              == if |mine| <= MaxLikedPerUser then |mine| else MaxLikedPerUser
    ensures forall r, v ::
              (r in UserLiked(EnforceLiked(rows, guildId, userId), guildId, userId) &&
               v in LikedExcess(rows, guildId, userId)) ==> v.createdAt <= r.createdAt
    ensures forall g, u :: (g, u) != (guildId, userId) ==>
              UserLiked(EnforceLiked(rows, guildId, userId), g, u) == UserLiked(rows, g, u)
  {
    var mine := UserLiked(rows, guildId, userId);
    var victims := LikedExcess(rows, guildId, userId);
    var drop := NotIn(Elements(victims));
    var after := EnforceLiked(rows, guildId, userId);
    ExcessFacts(rows, guildId, userId);
    FilterCommutes(rows, drop, OfUser(guildId, userId));
    assert UserLiked(after, guildId, userId) == Filter(mine, drop);
    FilterMembers(mine, drop);
    FilterOutCount(mine, drop, Elements(victims));
    ElementsCount(victims);
    FilterMembers(rows, OfUser(guildId, userId));
    forall g, u | (g, u) != (guildId, userId)
      ensures UserLiked(after, g, u) == UserLiked(rows, g, u)
    {
      FilterCommutes(rows, drop, OfUser(g, u));
      FilterMembers(rows, OfUser(g, u));
      var theirs := UserLiked(rows, g, u);
      forall k | 0 <= k < |theirs| ensures drop(theirs[k]) {
        assert theirs[k] in theirs;
      }
      FilterKeepsAll(theirs, drop);
    }
  }

  /** `ORDER BY created_at DESC`: newest first. */
  function NewestFirst(rows: seq<LikedRow>): seq<LikedRow>
  {
    Reverse(OldestFirst(rows))
  }

  function TracksOf(rows: seq<LikedRow>): (tracks: seq<Track>)
    ensures |tracks| == |rows| && forall i :: 0 <= i < |rows| ==> tracks[i] == rows[i].track
  {
    seq(|rows|, i requires 0 <= i < |rows| => rows[i].track)
  }

  /** `list_liked`: the user's tracks newest first, each row exactly once. */
  lemma ListLikedOrder(rows: seq<LikedRow>, guildId: int, userId: int)
    ensures var listed := NewestFirst(UserLiked(rows, guildId, userId));
            multiset(listed) == multiset(UserLiked(rows, guildId, userId)) &&
            (forall i, j :: 0 <= i < j < |listed| ==> listed[i].createdAt >= listed[j].createdAt)
  {
    var mine := UserLiked(rows, guildId, userId);
    SortBySorts(mine, LikedAt());
    ReversePermutes(OldestFirst(mine));
    ReverseDescending(OldestFirst(mine), LikedAt());
  }

  // ---------------------------------------------------------------------------------------
  // playlists and playlist_items
  // ---------------------------------------------------------------------------------------

  /** A `playlists` row; `(guild, owner, name)` is unique. */
  datatype PlaylistRow = PlaylistRow(id: int, guildId: int, ownerId: int, name: string, createdAt: int)

  /** The errors the storage raises. */
  datatype StorageError = IntegrityError

  predicate Names(p: PlaylistRow, guildId: int, ownerId: int, name: string)
  {
    p.guildId == guildId && p.ownerId == ownerId && p.name == name
  }

  /** `_get_playlist_id`: the id of the playlist with this guild, owner and name. */
  function FindPlaylist(rows: seq<PlaylistRow>, guildId: int, ownerId: int, name: string): (r: Option<int>)
    ensures r.None? <==> forall i :: 0 <= i < |rows| ==> !Names(rows[i], guildId, ownerId, name)
    ensures r.Some? ==> exists i :: 0 <= i < |rows| && Names(rows[i], guildId, ownerId, name) && rows[i].id == r.value
  {
    if rows == [] then None
    else if Names(rows[0], guildId, ownerId, name) then Some(rows[0].id)
    else
      FindPlaylist(rows[1..], guildId, ownerId, name)
  }

  function DifferentPlaylists(): (PlaylistRow, PlaylistRow) -> bool
  {
    (a: PlaylistRow, b: PlaylistRow) => a.id != b.id && !Names(b, a.guildId, a.ownerId, a.name)
  }

  /** Ids are unique, and so is `(guild, owner, name)`. */
  predicate DistinctPlaylists(rows: seq<PlaylistRow>)
  {
    Pairwise(rows, DifferentPlaylists())
  }

  function PlaylistIds(rows: seq<PlaylistRow>): set<int>
  {
    set p | p in rows :: p.id
  }

  /** The positions of a playlist's items are exactly 1, 2, …, n. */
  ghost predicate Contiguous(items: map<int, Track>)
  {
    forall k :: k in items <==> 1 <= k <= |items|
  }

  /** Under contiguity `MAX(position)` is the item count, which `add_playlist_track` adds one to. */
  lemma LastPosition(items: map<int, Track>)
    requires Contiguous(items)
    ensures forall k :: k in items ==> k <= |items|
    ensures items != map[] ==> |items| in items
  {
    if items != map[] {
      assert |items| != 0;
    }
  }

  /** `playlist_tracks`' `ORDER BY position ASC`. */
  function InOrder(items: map<int, Track>): (tracks: seq<Track>)
    requires Contiguous(items)
    ensures |tracks| == |items|
  {
    seq(|items|, i requires 0 <= i < |items| => items[i + 1])
  }

  /** Deleting the item at `pos` and moving every later item down one position. */
  function RemovePosition(items: map<int, Track>, pos: int): (out: map<int, Track>)
    requires Contiguous(items) && pos in items
    ensures Contiguous(out) && |out| == |items| - 1
  {
    var out := map k | k in items && k < |items| :: if k < pos then items[k] else items[k + 1];
    assert out.Keys == set k | k in items && k < |items|;
    assert items.Keys == out.Keys + {|items|};
    out
  }

  /** Removing position `pos` removes the `pos`-th track and keeps the order of the others. */
  lemma RemovePositionTracks(items: map<int, Track>, pos: int)
    requires Contiguous(items) && pos in items
    ensures InOrder(RemovePosition(items, pos)) == InOrder(items)[..pos - 1] + InOrder(items)[pos..]
  {
  }

  /** Appending a track at `MAX(position) + 1` appends it to the listed tracks. */
  lemma AppendPositionTracks(items: map<int, Track>, t: Track)
    requires Contiguous(items)
    ensures |items| + 1 !in items
    ensures Contiguous(items[|items| + 1 := t])
    ensures InOrder(items[|items| + 1 := t]) == InOrder(items) + [t]
  {
    assert |items[|items| + 1 := t]| == |items| + 1;
  }

  /** The items at positions up to `n`. */
  function UpTo(items: map<int, Track>, n: int): map<int, Track>
  {
    map k | k in items && k <= n :: items[k]
  }

  lemma {:induction false} UpToCount(items: map<int, Track>, n: nat)
    requires Contiguous(items) && n <= |items|
    ensures Contiguous(UpTo(items, n)) && |UpTo(items, n)| == n
    decreases |items| - n
  {
    if n == |items| {
      assert UpTo(items, n) == items;
    } else {
      UpToCount(items, n + 1);
      assert UpTo(items, n) == UpTo(items, n + 1) - {n + 1};
      assert n + 1 in UpTo(items, n + 1);
    }
  }

  /** `_enforce_playlist_limit`: the items past the limit, those with the largest positions, are
      deleted. */
  function TrimPlaylist(items: map<int, Track>): (out: map<int, Track>)
    requires Contiguous(items)
    ensures Contiguous(out)
    ensures |items| <= MaxPlaylistItems ==> out == items
    ensures |items| > MaxPlaylistItems ==> |out| == MaxPlaylistItems
    ensures InOrder(out) == InOrder(items)[..|out|]
  {
    if |items| <= MaxPlaylistItems then items
    else
      UpToCount(items, MaxPlaylistItems);
      UpTo(items, MaxPlaylistItems)
  }

  function InGuilds(active: set<int>): LikedRow -> bool
  {
    (r: LikedRow) => r.guildId in active
  }

  function PlaylistInGuilds(active: set<int>): PlaylistRow -> bool
  {
    (p: PlaylistRow) => p.guildId in active
  }

  /** The guilds that have a row in `allowed_channels`. */
  function ChannelGuilds(rows: set<(int, int)>): (guilds: set<int>)
    ensures forall g :: g in guilds <==> exists c :: (g, c) in rows
  {
    var guilds := set p | p in rows :: p.0;
    assert forall g :: g in guilds ==> exists c :: (g, c) in rows by {
      forall g | g in guilds ensures exists c :: (g, c) in rows {
        var p :| p in rows && p.0 == g;
        var c := p.1;
        assert (g, c) in rows;
      }
    }
    guilds
  }

  /** The `allowed_channels` rows grouped by guild, as `load_allowed_channels_all` builds them:
      exactly the guilds that have a row, each with its channels. */
  function ChannelsByGuild(rows: set<(int, int)>): (out: map<int, set<int>>)
    ensures forall g :: g in out <==> exists c :: (g, c) in rows
    ensures forall g, c :: g in out ==> (c in out[g] <==> (g, c) in rows)
  {
    map g | g in ChannelGuilds(rows) :: set p | p in rows && p.0 == g :: p.1
  }

  /** The guilds that have a row in `command_restrictions`. */
  function RestrictedGuilds(rows: map<(int, string), int>): (guilds: set<int>)
    ensures forall g :: g in guilds <==> exists name :: (g, name) in rows
  {
    var guilds := set k | k in rows :: k.0;
    assert forall g :: g in guilds ==> exists name :: (g, name) in rows by {
      forall g | g in guilds ensures exists name :: (g, name) in rows {
        var k :| k in rows && k.0 == g;
        var name := k.1;
        assert (g, name) in rows;
      }
    }
    guilds
  }

  /** The `command_restrictions` rows grouped by guild, as `load_command_restrictions_all`
      builds them. */
  function RestrictionsByGuild(rows: map<(int, string), int>): (out: map<int, map<string, int>>)
    ensures forall g :: g in out <==> exists name :: (g, name) in rows
    ensures forall g, name :: g in out ==>
              (name in out[g] <==> (g, name) in rows) &&
              (name in out[g] ==> out[g][name] == rows[(g, name)])
  {
    map g | g in RestrictedGuilds(rows) ::
      map name | name in (set k | k in rows && k.0 == g :: k.1) :: rows[(g, name)]
  }

  function OwnedBy(guildId: int, ownerId: int): PlaylistRow -> bool
  {
    (p: PlaylistRow) => p.guildId == guildId && p.ownerId == ownerId
  }

  function PlaylistAt(): PlaylistRow -> int
  {
    (p: PlaylistRow) => p.createdAt
  }

  /** `... WHERE guild_id=? AND owner_user_id=? ORDER BY created_at DESC`: the owner's
      playlists newest first; playlists created in the same second are listed latest first. */
  function NewestPlaylists(rows: seq<PlaylistRow>, guildId: int, ownerId: int): seq<PlaylistRow>
  {
    Reverse(SortBy(Filter(rows, OwnedBy(guildId, ownerId)), PlaylistAt()))
  }

  /** `list_playlists` lists each of the owner's playlists exactly once, newest first. */
  lemma ListPlaylistsOrder(rows: seq<PlaylistRow>, guildId: int, ownerId: int)
    ensures var listed := NewestPlaylists(rows, guildId, ownerId);
            multiset(listed) == multiset(Filter(rows, OwnedBy(guildId, ownerId))) &&
            (forall i, j :: 0 <= i < j < |listed| ==> listed[i].createdAt >= listed[j].createdAt)
  {
    var mine := Filter(rows, OwnedBy(guildId, ownerId));
    SortBySorts(mine, PlaylistAt());
    ReversePermutes(SortBy(mine, PlaylistAt()));
    ReverseDescending(SortBy(mine, PlaylistAt()), PlaylistAt());
  }

  /** Each playlist's name with `COUNT(i.position)` of the `LEFT JOIN`: its number of items,
      0 when it has none. */
  function Summaries(listed: seq<PlaylistRow>, items: map<int, map<int, Track>>)
    : (out: seq<(string, int)>)
    ensures |out| == |listed|
    ensures forall i :: 0 <= i < |listed| ==>
              out[i].0 == listed[i].name &&
              out[i].1 == (if listed[i].id in items then |items[listed[i].id]| else 0)
  {
    seq(|listed|, i requires 0 <= i < |listed| =>
      (listed[i].name, if listed[i].id in items then |items[listed[i].id]| else 0))
  }

  /** After `cleanup_orphaned_guilds` every liked row and playlist belongs to an active guild,
      and what a user of an active guild has liked or owns is exactly what it was. */
  lemma CleanupKeepsActiveGuilds(liked: seq<LikedRow>, playlists: seq<PlaylistRow>,
                                 active: set<int>, guildId: int, userId: int)
    ensures forall r :: r in Filter(liked, InGuilds(active)) ==> r.guildId in active
    ensures forall p :: p in Filter(playlists, PlaylistInGuilds(active)) ==> p.guildId in active
    ensures guildId in active ==>
              UserLiked(Filter(liked, InGuilds(active)), guildId, userId)
                == UserLiked(liked, guildId, userId)
    ensures guildId in active ==>
              Filter(Filter(playlists, PlaylistInGuilds(active)), OwnedBy(guildId, userId))
                == Filter(playlists, OwnedBy(guildId, userId))
  {
    FilterMembers(liked, InGuilds(active));
    FilterMembers(playlists, PlaylistInGuilds(active));
    if guildId in active {
      FilterWithin(liked, InGuilds(active), OfUser(guildId, userId));
      FilterWithin(playlists, PlaylistInGuilds(active), OwnedBy(guildId, userId));
    }
  }

  /** What `cleanup_orphaned_guilds` reports: the rows deleted from each table. */
  datatype CleanupCounts = CleanupCounts(
    guildSettings: int, allowedChannels: int, commandRestrictions: int, likedTracks: int,
    playlists: int)

  /** The `guild_settings` rows of the active guilds. */
  function SettingsIn(rows: map<int, SettingsRow>, active: set<int>): (out: map<int, SettingsRow>)
    ensures out.Keys == rows.Keys * active
    ensures forall g :: g in out ==> out[g] == rows[g]
  {
    map g | g in rows && g in active :: rows[g]
  }

  /** The `allowed_channels` rows of the active guilds. */
  function ChannelsIn(rows: set<(int, int)>, active: set<int>): (out: set<(int, int)>)
    ensures out <= rows
    ensures forall p :: p in out <==> p in rows && p.0 in active
  {
    set p | p in rows && p.0 in active
  }

  /** The `command_restrictions` rows of the active guilds. */
  function RestrictionsIn(rows: map<(int, string), int>, active: set<int>)
    : (out: map<(int, string), int>)
    ensures forall k :: k in out <==> k in rows && k.0 in active
    ensures forall k :: k in out ==> out[k] == rows[k]
  {
    map k | k in rows && k.0 in active :: rows[k]
  }

  /** The `playlist_items` left once the playlists not in `playlists` are deleted (`ON DELETE
      CASCADE`). */
  function ItemsOf(items: map<int, map<int, Track>>, playlists: seq<PlaylistRow>)
    : (out: map<int, map<int, Track>>)
    ensures out.Keys == items.Keys * PlaylistIds(playlists)
    ensures forall id :: id in out ==> out[id] == items[id]
  {
    map id | id in items && id in PlaylistIds(playlists) :: items[id]
  }

  /** What the playlist tables keep: unique ids below the next autoincrement value, unique
      names per owner and guild, an item map for exactly the existing playlists, and items at
      positions 1..n with n within the limit. */
  ghost predicate PlaylistTables(playlists: seq<PlaylistRow>, items: map<int, map<int, Track>>, nextId: int)
  {
    && DistinctPlaylists(playlists)
    && (forall i :: 0 <= i < |playlists| ==> playlists[i].id < nextId)
    && items.Keys == PlaylistIds(playlists)
    && (forall id :: id in items ==> Contiguous(items[id]) && |items[id]| <= MaxPlaylistItems)
  }

  /** A new playlist row with the next id and a name not yet taken keeps ids and names unique. */
  lemma AppendKeepsDistinct(playlists: seq<PlaylistRow>, nextId: int, row: PlaylistRow)
    requires DistinctPlaylists(playlists)
    requires forall i :: 0 <= i < |playlists| ==> playlists[i].id < nextId
    requires row.id == nextId
    requires FindPlaylist(playlists, row.guildId, row.ownerId, row.name).None?
    ensures DistinctPlaylists(playlists + [row])
    ensures forall i :: 0 <= i < |playlists + [row]| ==> (playlists + [row])[i].id < nextId + 1
    ensures nextId !in PlaylistIds(playlists)
    ensures PlaylistIds(playlists + [row]) == PlaylistIds(playlists) + {nextId}
  {
    var after := playlists + [row];
    assert forall i :: 0 <= i < |playlists| ==> DifferentPlaylists()(playlists[i], row);
    AppendPairwise(playlists, row, DifferentPlaylists());
    forall i | 0 <= i < |after| ensures after[i].id < nextId + 1 {
      if i < |playlists| {
        assert after[i] == playlists[i];
      }
    }
    forall p | p in playlists ensures p.id != nextId {
      var i :| 0 <= i < |playlists| && playlists[i] == p;
    }
  }

  lemma CreateKeepsTables(playlists: seq<PlaylistRow>, items: map<int, map<int, Track>>, nextId: int,
                          row: PlaylistRow)
    requires PlaylistTables(playlists, items, nextId)
    requires row.id == nextId
    requires FindPlaylist(playlists, row.guildId, row.ownerId, row.name).None?
    ensures nextId !in items
    ensures PlaylistTables(playlists + [row], items[nextId := map[]], nextId + 1)
    ensures FindPlaylist(playlists + [row], row.guildId, row.ownerId, row.name) == Some(nextId)
  {
    AppendKeepsDistinct(playlists, nextId, row);
    assert nextId !in PlaylistIds(playlists) by {
      forall p | p in playlists ensures p.id < nextId {
        var i :| 0 <= i < |playlists| && playlists[i] == p;
      }
    }
    PlaylistIdsAppend(playlists, row);
    NewItemsKeepShape(items, nextId);
    FindAfterAppend(playlists, row);
  }

  lemma PlaylistIdsAppend(rows: seq<PlaylistRow>, row: PlaylistRow)
    ensures PlaylistIds(rows + [row]) == PlaylistIds(rows) + {row.id}
  {
    assert forall p :: p in rows + [row] <==> p in rows || p == row;
  }

  /** An empty item map for a new playlist keeps every item map contiguous and within the
      limit. */
  lemma NewItemsKeepShape(items: map<int, map<int, Track>>, nextId: int)
    requires forall id :: id in items ==> Contiguous(items[id]) && |items[id]| <= MaxPlaylistItems
    ensures var its := items[nextId := map[]];
            its.Keys == items.Keys + {nextId} &&
            forall id :: id in its ==> Contiguous(its[id]) && |its[id]| <= MaxPlaylistItems
  {
    var empty: map<int, Track> := map[];
    var its := items[nextId := empty];
    assert Contiguous(empty);
    forall id | id in its ensures Contiguous(its[id]) && |its[id]| <= MaxPlaylistItems {
      if id != nextId {
        assert its[id] == items[id];
      }
    }
  }

  lemma SetItemsKeepsTables(playlists: seq<PlaylistRow>, items: map<int, map<int, Track>>, nextId: int,
                            pid: int, m: map<int, Track>)
    requires PlaylistTables(playlists, items, nextId)
    requires pid in items && Contiguous(m) && |m| <= MaxPlaylistItems
    ensures PlaylistTables(playlists, items[pid := m], nextId)
  {
  }

  lemma DeleteKeepsTables(playlists: seq<PlaylistRow>, items: map<int, map<int, Track>>, nextId: int,
                          guildId: int, ownerId: int, name: string, id: int)
    requires PlaylistTables(playlists, items, nextId)
    requires FindPlaylist(playlists, guildId, ownerId, name) == Some(id)
    ensures var after := Filter(playlists, (p: PlaylistRow) => !Names(p, guildId, ownerId, name));
            PlaylistTables(after, items - {id}, nextId) &&
            FindPlaylist(after, guildId, ownerId, name).None?
  {
    var keep := (p: PlaylistRow) => !Names(p, guildId, ownerId, name);
    KeepPlaylistsValid(playlists, keep, nextId);
    OnlyNamedHasId(playlists, guildId, ownerId, name, id);
    FilterMembers(playlists, keep);
    var after := Filter(playlists, keep);
    forall i | 0 <= i < |after| ensures !Names(after[i], guildId, ownerId, name) {
      assert after[i] in after;
    }
  }

  lemma CleanupKeepsTables(playlists: seq<PlaylistRow>, items: map<int, map<int, Track>>, nextId: int,
                           active: set<int>)
    requires PlaylistTables(playlists, items, nextId)
    ensures var after := Filter(playlists, PlaylistInGuilds(active));
            PlaylistTables(after, ItemsOf(items, after), nextId)
  {
    KeepPlaylistsValid(playlists, PlaylistInGuilds(active), nextId);
    var after := Filter(playlists, PlaylistInGuilds(active));
    FilterMembers(playlists, PlaylistInGuilds(active));
    assert PlaylistIds(after) <= PlaylistIds(playlists);
  }

  /** The database behind `SQLiteStorage`, table by table, while connected. */
  class SqliteStorage {
    var settings: map<int, SettingsRow>
    var allowedChannels: set<(int, int)>
    var restrictions: map<(int, string), int>
    var liked: seq<LikedRow>
    var playlists: seq<PlaylistRow>
    var items: map<int, map<int, Track>>
    var nextPlaylistId: int

    /** The constraints the schema and the methods keep. */
    ghost predicate Valid()
      reads this
    {
      UniqueKeys(liked) && PlaylistTables(playlists, items, nextPlaylistId)
    }

    /** `connect`: a new database with empty tables. */
    constructor ()
      ensures Valid()
      ensures settings == map[] && allowedChannels == {} && restrictions == map[]
      ensures liked == [] && playlists == [] && items == map[]
    {
      settings := map[];
      allowedChannels := {};
      restrictions := map[];
      liked := [];
      playlists := [];
      items := map[];
      nextPlaylistId := 1;
    }

    // guild_settings -----------------------------------------------------------------------

    /** `load_guild_settings_all`. */
    method LoadGuildSettingsAll() returns (out: map<int, GuildSettings>)
      ensures out.Keys == settings.Keys
      ensures forall g :: g in out ==> out[g] == FromRow(settings[g])
    {
      out := map g | g in settings :: FromRow(settings[g]);
    }

    /** `upsert_guild_settings`: inserts or replaces the guild's row. */
    method UpsertGuildSettings(guildId: int, s: GuildSettings)
      requires Valid()
      modifies this
      ensures Valid()
      ensures settings == old(settings)[guildId := ToRow(s)]
      ensures unchanged(this`allowedChannels, this`restrictions, this`liked, this`playlists)
      ensures unchanged(this`items, this`nextPlaylistId)
    {
      settings := settings[guildId := ToRow(s)];
    }

    // allowed_channels ---------------------------------------------------------------------

    /** `load_allowed_channels_all`. */
    method LoadAllowedChannelsAll() returns (out: map<int, set<int>>)
      ensures out == ChannelsByGuild(allowedChannels)
    {
      out := ChannelsByGuild(allowedChannels);
    }

    /** `add_allowed_channel` (`INSERT OR IGNORE`). */
    method AddAllowedChannel(guildId: int, channelId: int)
      requires Valid()
      modifies this
      ensures Valid()
      ensures allowedChannels == old(allowedChannels) + {(guildId, channelId)}
      ensures unchanged(this`settings, this`restrictions, this`liked, this`playlists)
      ensures unchanged(this`items, this`nextPlaylistId)
    {
      allowedChannels := allowedChannels + {(guildId, channelId)};
    }

    /** `remove_allowed_channel`. */
    method RemoveAllowedChannel(guildId: int, channelId: int)
      requires Valid()
      modifies this
      ensures Valid()
      ensures allowedChannels == old(allowedChannels) - {(guildId, channelId)}
      ensures unchanged(this`settings, this`restrictions, this`liked, this`playlists)
      ensures unchanged(this`items, this`nextPlaylistId)
    {
      allowedChannels := allowedChannels - {(guildId, channelId)};
    }

    /** `clear_allowed_channels`: every row of the guild. */
    method ClearAllowedChannels(guildId: int)
      requires Valid()
      modifies this
      ensures Valid()
      ensures allowedChannels == set p | p in old(allowedChannels) && p.0 != guildId
      ensures unchanged(this`settings, this`restrictions, this`liked, this`playlists)
      ensures unchanged(this`items, this`nextPlaylistId)
    {
      allowedChannels := set p | p in allowedChannels && p.0 != guildId;
    }

    // command_restrictions -----------------------------------------------------------------

    /** `load_command_restrictions_all`. */
    method LoadCommandRestrictionsAll() returns (out: map<int, map<string, int>>)
      ensures out == RestrictionsByGuild(restrictions)
    {
      out := RestrictionsByGuild(restrictions);
    }

    /** `set_command_restriction` (insert, or update the channel on conflict). */
    method SetCommandRestriction(guildId: int, name: string, channelId: int)
      requires Valid()
      modifies this
      ensures Valid()
      ensures restrictions == old(restrictions)[(guildId, name) := channelId]
      ensures unchanged(this`settings, this`allowedChannels, this`liked, this`playlists)
      ensures unchanged(this`items, this`nextPlaylistId)
    {
      restrictions := restrictions[(guildId, name) := channelId];
    }

    /** `clear_command_restriction`. */
    method ClearCommandRestriction(guildId: int, name: string)
      requires Valid()
      modifies this
      ensures Valid()
      ensures restrictions == old(restrictions) - {(guildId, name)}
      ensures unchanged(this`settings, this`allowedChannels, this`liked, this`playlists)
      ensures unchanged(this`items, this`nextPlaylistId)
    {
      restrictions := restrictions - {(guildId, name)};
    }

    // liked_tracks -------------------------------------------------------------------------

    /** `like_track`: `INSERT OR IGNORE` with `created_at = now`; when a row was inserted the
        user's limit is enforced. True when the track was not liked before. */
    method LikeTrack(guildId: int, userId: int, track: Track, now: int) returns (inserted: bool)
      requires Valid()
      modifies this
      ensures Valid()
      ensures inserted <==> !Liked(old(liked), guildId, userId, track.identifier)
      ensures !inserted ==> liked == old(liked)
      ensures inserted ==>
        liked == EnforceLiked(old(liked) + [LikedRow(guildId, userId, track, now)], guildId, userId)
      ensures unchanged(this`settings, this`allowedChannels, this`restrictions, this`playlists)
      ensures unchanged(this`items, this`nextPlaylistId)
    {
      inserted := !Liked(liked, guildId, userId, track.identifier);
      if inserted {
        liked := liked + [LikedRow(guildId, userId, track, now)];
        var _ := EnforceLikedLimit(guildId, userId);
      }
    }

    /** `_enforce_liked_limit`: deletes the user's oldest rows beyond `MAX_LIKED_PER_USER` and
        returns how many. */
    method EnforceLikedLimit(guildId: int, userId: int) returns (deleted: int)
      requires UniqueKeys(liked)
      modifies this
      ensures liked == EnforceLiked(old(liked), guildId, userId)
      ensures deleted == |old(liked)| - |liked|
      ensures deleted == |LikedExcess(old(liked), guildId, userId)|
      ensures UniqueKeys(liked)
      ensures unchanged(this`settings, this`allowedChannels, this`restrictions, this`playlists)
      ensures unchanged(this`items, this`nextPlaylistId)
    {
      var excess := LikedExcess(liked, guildId, userId);
      var before := liked;
      liked := EnforceLiked(liked, guildId, userId);
      deleted := |before| - |liked|;
      ExcessDeletedCount(before, guildId, userId);
      KeepUniqueKeys(before, NotIn(Elements(excess)));
    }

    /** `unlike_track`: deletes the row; true when there was one. */
    method UnlikeTrack(guildId: int, userId: int, identifier: string) returns (removed: bool)
      requires Valid()
      modifies this
      ensures Valid()
      ensures removed <==> Liked(old(liked), guildId, userId, identifier)
      ensures liked == Filter(old(liked), (r: LikedRow) => !HasKey(r, guildId, userId, identifier))
      ensures !Liked(liked, guildId, userId, identifier)
      ensures unchanged(this`settings, this`allowedChannels, this`restrictions, this`playlists)
      ensures unchanged(this`items, this`nextPlaylistId)
    {
      removed := Liked(liked, guildId, userId, identifier);
      var keep := (r: LikedRow) => !HasKey(r, guildId, userId, identifier);
      KeepUniqueKeys(liked, keep);
      FilterMembers(liked, keep);
      liked := Filter(liked, keep);
      assert forall i :: 0 <= i < |liked| ==> liked[i] in liked;
    }

    /** `list_liked`: the user's tracks, newest first. */
    method ListLiked(guildId: int, userId: int) returns (tracks: seq<Track>)
      ensures tracks == TracksOf(NewestFirst(UserLiked(liked, guildId, userId)))
    {
      tracks := TracksOf(NewestFirst(UserLiked(liked, guildId, userId)));
    }

    /** `clear_liked`: deletes every row of the user in the guild and returns how many. */
    method ClearLiked(guildId: int, userId: int) returns (deleted: int)
      requires Valid()
      modifies this
      ensures Valid()
      ensures liked == Filter(old(liked), NotOfUser(guildId, userId))
      ensures deleted == |UserLiked(old(liked), guildId, userId)|
      ensures |liked| == |old(liked)| - deleted
      ensures forall r :: r in liked ==> !(r.guildId == guildId && r.userId == userId)
      ensures unchanged(this`settings, this`allowedChannels, this`restrictions, this`playlists)
      ensures unchanged(this`items, this`nextPlaylistId)
    {
      var keep := NotOfUser(guildId, userId);
      KeepUniqueKeys(liked, keep);
      FilterSplit(liked, keep, OfUser(guildId, userId));
      FilterMembers(liked, keep);
      deleted := |UserLiked(liked, guildId, userId)|;
      liked := Filter(liked, keep);
    }

    /** `prune_old_liked`: deletes the rows created before `now - maxAgeDays` days and returns
        how many; `now` is the clock reading the source takes itself. */
    method PruneOldLiked(now: int, maxAgeDays: int) returns (deleted: int)
      requires Valid()
      modifies this
      ensures Valid()
      ensures liked == Filter(old(liked), CreatedSince(now - maxAgeDays * SecondsPerDay))
      ensures forall r :: r in liked ==> r.createdAt >= now - maxAgeDays * SecondsPerDay
      ensures forall r :: r in old(liked) && r.createdAt >= now - maxAgeDays * SecondsPerDay ==> r in liked
      ensures deleted == |old(liked)| - |liked| && deleted >= 0
      ensures unchanged(this`settings, this`allowedChannels, this`restrictions, this`playlists)
      ensures unchanged(this`items, this`nextPlaylistId)
    {
      var keep := CreatedSince(now - maxAgeDays * SecondsPerDay);
      KeepUniqueKeys(liked, keep);
      FilterMembers(liked, keep);
      var after := Filter(liked, keep);
      deleted := |liked| - |after|;
      liked := after;
    }

    // playlists ----------------------------------------------------------------------------

    /** `create_playlist`: the new playlist's id, or `IntegrityError` when the owner already has
        a playlist of that name in the guild. */
    method CreatePlaylist(guildId: int, ownerId: int, name: string, now: int)
      returns (r: Result<int, StorageError>)
      requires Valid()
      modifies this
      ensures Valid()
      ensures r.Failure? <==> FindPlaylist(old(playlists), guildId, ownerId, name).Some?
      ensures r.Failure? ==> playlists == old(playlists) && items == old(items)
      ensures r.Success? ==>
        && r.value !in old(items)
        && playlists == old(playlists) + [PlaylistRow(r.value, guildId, ownerId, name, now)]
        && items == old(items)[r.value := map[]]
      ensures r.Success? ==> FindPlaylist(playlists, guildId, ownerId, name) == Some(r.value)
      ensures unchanged(this`settings, this`allowedChannels, this`restrictions, this`liked)
    {
      if FindPlaylist(playlists, guildId, ownerId, name).Some? {
        r := Failure(IntegrityError);
        return;
      }
      var id := nextPlaylistId;
      var row := PlaylistRow(id, guildId, ownerId, name, now);
      CreateKeepsTables(playlists, items, nextPlaylistId, row);
      playlists := playlists + [row];
      items := items[id := map[]];
      nextPlaylistId := nextPlaylistId + 1;
      r := Success(id);
    }

    /** `delete_playlist`: deletes the playlist and, by the cascade, its items. */
    method DeletePlaylist(guildId: int, ownerId: int, name: string) returns (removed: bool)
      requires Valid()
      modifies this
      ensures Valid()
      ensures removed <==> FindPlaylist(old(playlists), guildId, ownerId, name).Some?
      ensures !removed ==> playlists == old(playlists) && items == old(items)
      ensures removed ==>
        && playlists == Filter(old(playlists), (p: PlaylistRow) => !Names(p, guildId, ownerId, name))
        && items == old(items) - {FindPlaylist(old(playlists), guildId, ownerId, name).value}
      ensures FindPlaylist(playlists, guildId, ownerId, name).None?
      ensures unchanged(this`settings, this`allowedChannels, this`restrictions, this`liked)
    {
      var found := FindPlaylist(playlists, guildId, ownerId, name);
      removed := found.Some?;
      if removed {
        DeleteKeepsTables(playlists, items, nextPlaylistId, guildId, ownerId, name, found.value);
        playlists := Filter(playlists, (p: PlaylistRow) => !Names(p, guildId, ownerId, name));
        items := items - {found.value};
      }
    }

    /** `playlist_tracks`: `None` when there is no such playlist, otherwise its tracks in
        position order. */
    method PlaylistTracks(guildId: int, ownerId: int, name: string) returns (r: Option<seq<Track>>)
      requires Valid()
      ensures r.None? <==> FindPlaylist(playlists, guildId, ownerId, name).None?
      ensures r.Some? ==> r.value == InOrder(items[FindPlaylist(playlists, guildId, ownerId, name).value])
    {
      var found := FindPlaylist(playlists, guildId, ownerId, name);
      if found.None? {
        return None;
      }
      FoundInItems(guildId, ownerId, name);
      r := Some(InOrder(items[found.value]));
    }

    /** `list_playlists`: the owner's playlists in the guild, newest first, each with its
        number of items. */
    method ListPlaylists(guildId: int, ownerId: int) returns (out: seq<(string, int)>)
      ensures out == Summaries(NewestPlaylists(playlists, guildId, ownerId), items)
    {
      out := Summaries(NewestPlaylists(playlists, guildId, ownerId), items);
    }

    lemma FoundInItems(guildId: int, ownerId: int, name: string)
      requires Valid() && FindPlaylist(playlists, guildId, ownerId, name).Some?
      ensures FindPlaylist(playlists, guildId, ownerId, name).value in items
    {
      var i :| 0 <= i < |playlists| && Names(playlists[i], guildId, ownerId, name) &&
               playlists[i].id == FindPlaylist(playlists, guildId, ownerId, name).value;
      assert playlists[i] in playlists;
    }

    /** `add_playlist_track`: false when there is no such playlist or it is full; otherwise the
        track goes at position `MAX(position) + 1`. */
    method AddPlaylistTrack(guildId: int, ownerId: int, name: string, track: Track) returns (added: bool)
      requires Valid()
      modifies this
      ensures Valid()
      ensures var found := FindPlaylist(old(playlists), guildId, ownerId, name);
              (added <==> found.Some? && |old(items)[found.value]| < MaxPlaylistItems) &&
              (!added ==> items == old(items)) &&
              (added ==> items == old(items)[found.value := old(items)[found.value][|old(items)[found.value]| + 1 := track]])
      ensures unchanged(this`settings, this`allowedChannels, this`restrictions, this`liked)
      ensures unchanged(this`playlists, this`nextPlaylistId)
    {
      var found := FindPlaylist(playlists, guildId, ownerId, name);
      if found.None? {
        return false;
      }
      var pid := found.value;
      FoundInItems(guildId, ownerId, name);
      var m := items[pid];
      if |m| >= MaxPlaylistItems {
        return false;
      }
      LastPosition(m);
      AppendPositionTracks(m, track);
      SetItemsKeepsTables(playlists, items, nextPlaylistId, pid, m[|m| + 1 := track]);
      items := items[pid := m[|m| + 1 := track]];
      added := true;
    }

    /** `remove_playlist_track`: false when there is no such playlist, the position is not
        positive or no item has it; otherwise that item is deleted and the later ones move up. */
    method RemovePlaylistTrack(guildId: int, ownerId: int, name: string, index: int) returns (removed: bool)
      requires Valid()
      modifies this
      ensures Valid()
      ensures var found := FindPlaylist(old(playlists), guildId, ownerId, name);
              (removed <==> found.Some? && index in old(items)[found.value]) &&
              (!removed ==> items == old(items)) &&
              (removed ==> items == old(items)[found.value := RemovePosition(old(items)[found.value], index)])
      ensures unchanged(this`settings, this`allowedChannels, this`restrictions, this`liked)
      ensures unchanged(this`playlists, this`nextPlaylistId)
    {
      var found := FindPlaylist(playlists, guildId, ownerId, name);
      if found.None? {
        return false;
      }
      var pid := found.value;
      FoundInItems(guildId, ownerId, name);
      if index <= 0 {
        return false;
      }
      var m := items[pid];
      if index !in m {
        return false;
      }
      SetItemsKeepsTables(playlists, items, nextPlaylistId, pid, RemovePosition(m, index));
      items := items[pid := RemovePosition(m, index)];
      removed := true;
    }

    /** `clear_playlist`: false when there is no such playlist; otherwise its items are
        deleted and the playlist stays. */
    method ClearPlaylist(guildId: int, ownerId: int, name: string) returns (cleared: bool)
      requires Valid()
      modifies this
      ensures Valid()
      ensures var found := FindPlaylist(old(playlists), guildId, ownerId, name);
              (cleared <==> found.Some?) &&
              (!cleared ==> items == old(items)) &&
              (cleared ==> items == old(items)[found.value := map[]])
      ensures unchanged(this`settings, this`allowedChannels, this`restrictions, this`liked)
      ensures unchanged(this`playlists, this`nextPlaylistId)
    {
      var found := FindPlaylist(playlists, guildId, ownerId, name);
      if found.None? {
        return false;
      }
      FoundInItems(guildId, ownerId, name);
      var empty: map<int, Track> := map[];
      assert Contiguous(empty);
      SetItemsKeepsTables(playlists, items, nextPlaylistId, found.value, empty);
      items := items[found.value := empty];
      cleared := true;
    }

    /** `_enforce_playlist_limit` (the model never lets a playlist exceed the limit, so it
        deletes nothing). */
    method EnforcePlaylistLimit(playlistId: int) returns (deleted: int)
      requires Valid()
      modifies this
      ensures Valid()
      ensures playlistId in old(items) ==> items == old(items)[playlistId := TrimPlaylist(old(items)[playlistId])]
      ensures playlistId !in old(items) ==> items == old(items)
      ensures deleted == 0
      ensures unchanged(this`settings, this`allowedChannels, this`restrictions, this`liked)
      ensures unchanged(this`playlists, this`nextPlaylistId)
    {
      deleted := 0;
      if playlistId in items {
        var m := items[playlistId];
        deleted := |m| - |TrimPlaylist(m)|;
        SetItemsKeepsTables(playlists, items, nextPlaylistId, playlistId, TrimPlaylist(m));
        items := items[playlistId := TrimPlaylist(m)];
      }
    }

    // maintenance --------------------------------------------------------------------------

    /** `cleanup_orphaned_guilds`: with no active guild nothing is deleted and the empty dict
        (`None`) is returned; otherwise every row of a guild not in `active` goes, playlist items
        by the cascade, and the count of rows deleted from each table is returned. */
    method CleanupOrphanedGuilds(active: set<int>) returns (deleted: Option<CleanupCounts>)
      requires Valid()
      modifies this
      ensures Valid()
      ensures active == {} ==> deleted == None && unchanged(this)
      ensures active != {} ==>
        && settings == SettingsIn(old(settings), active)
        && allowedChannels == ChannelsIn(old(allowedChannels), active)
        && restrictions == RestrictionsIn(old(restrictions), active)
        && liked == Filter(old(liked), InGuilds(active))
        && playlists == Filter(old(playlists), PlaylistInGuilds(active))
        && items == ItemsOf(old(items), playlists)
        && deleted == Some(CleanupCounts(
             |old(settings)| - |settings|, |old(allowedChannels)| - |allowedChannels|,
             |old(restrictions)| - |restrictions|, |old(liked)| - |liked|,
             |old(playlists)| - |playlists|))
      ensures nextPlaylistId == old(nextPlaylistId)
    {
      if active == {} {
        return None;
      }
      var s, a, r, l := DeleteGuildRows(active);
      var p := DeletePlaylistsOutside(active);
      deleted := Some(CleanupCounts(s, a, r, l, p));
    }

    /** The four `DELETE FROM <table> WHERE guild_id NOT IN (...)` statements of
        `cleanup_orphaned_guilds`, with their row counts. */
    method DeleteGuildRows(active: set<int>) returns (s: int, a: int, r: int, l: int)
      requires Valid()
      modifies this
      ensures Valid()
      ensures settings == SettingsIn(old(settings), active)
      ensures allowedChannels == ChannelsIn(old(allowedChannels), active)
      ensures restrictions == RestrictionsIn(old(restrictions), active)
      ensures liked == Filter(old(liked), InGuilds(active))
      ensures s == |old(settings)| - |settings| && a == |old(allowedChannels)| - |allowedChannels|
      ensures r == |old(restrictions)| - |restrictions| && l == |old(liked)| - |liked|
      ensures playlists == old(playlists) && items == old(items)
      ensures nextPlaylistId == old(nextPlaylistId)
    {
      KeepUniqueKeys(liked, InGuilds(active));
      var s1, a1, r1, l1 := SettingsIn(settings, active), ChannelsIn(allowedChannels, active),
        RestrictionsIn(restrictions, active), Filter(liked, InGuilds(active));
      s, a, r, l := |settings| - |s1|, |allowedChannels| - |a1|, |restrictions| - |r1|, |liked| - |l1|;
      settings, allowedChannels, restrictions, liked := s1, a1, r1, l1;
    }

    /** `DELETE FROM playlists WHERE guild_id NOT IN (...)`, whose items go by the cascade. */
    method DeletePlaylistsOutside(active: set<int>) returns (p: int)
      requires Valid()
      modifies this
      ensures Valid()
      ensures playlists == Filter(old(playlists), PlaylistInGuilds(active))
      ensures items == ItemsOf(old(items), playlists)
      ensures p == |old(playlists)| - |playlists|
      ensures settings == old(settings) && allowedChannels == old(allowedChannels)
      ensures restrictions == old(restrictions) && liked == old(liked)
      ensures nextPlaylistId == old(nextPlaylistId)
    {
      CleanupKeepsTables(playlists, items, nextPlaylistId, active);
      var p1 := Filter(playlists, PlaylistInGuilds(active));
      p := |playlists| - |p1|;
      playlists, items := p1, ItemsOf(items, p1);
    }
  }

  /** Deleting rows keeps the primary key unique. */
  lemma KeepUniqueKeys(rows: seq<LikedRow>, keep: LikedRow -> bool)
    requires UniqueKeys(rows)
    ensures UniqueKeys(Filter(rows, keep))
  {
    FilterPairwise(rows, keep, DifferentKeys());
  }

  /** Deleting playlists keeps ids and names unique and below the next id. */
  lemma KeepPlaylistsValid(rows: seq<PlaylistRow>, keep: PlaylistRow -> bool, nextId: int)
    requires DistinctPlaylists(rows)
    requires forall i :: 0 <= i < |rows| ==> rows[i].id < nextId
    ensures DistinctPlaylists(Filter(rows, keep))
    ensures forall i :: 0 <= i < |Filter(rows, keep)| ==> Filter(rows, keep)[i].id < nextId
  {
    FilterPairwise(rows, keep, DifferentPlaylists());
    FilterMembers(rows, keep);
    var kept := Filter(rows, keep);
    forall i | 0 <= i < |kept| ensures kept[i].id < nextId {
      assert kept[i] in kept;
    }
  }

  /** The victims of the liked limit are rows of the user without repeats, and the rows the
      user keeps are no older than any of them. */
  lemma ExcessFacts(rows: seq<LikedRow>, guildId: int, userId: int)
    requires UniqueKeys(rows)
    ensures NoRepeats(UserLiked(rows, guildId, userId))
    ensures NoRepeats(LikedExcess(rows, guildId, userId))
    ensures Elements(LikedExcess(rows, guildId, userId)) <= Elements(UserLiked(rows, guildId, userId))
    ensures var mine := UserLiked(rows, guildId, userId);
            |mine| > MaxLikedPerUser ==> |LikedExcess(rows, guildId, userId)| == |mine| - MaxLikedPerUser
    ensures forall r, v ::
              (r in UserLiked(rows, guildId, userId) && r !in LikedExcess(rows, guildId, userId) &&
               v in LikedExcess(rows, guildId, userId)) ==> v.createdAt <= r.createdAt
  {
    var mine := UserLiked(rows, guildId, userId);
    var victims := LikedExcess(rows, guildId, userId);
    UniqueKeysNoRepeats(rows);
    FilterNoRepeats(rows, OfUser(guildId, userId));
    if |mine| > MaxLikedPerUser {
      var sorted := OldestFirst(mine);
      SortBySorts(mine, LikedAt());
      NoRepeatsPermutation(mine, sorted);
      var e := |mine| - MaxLikedPerUser;
      assert victims == sorted[..e];
      forall x | x in Elements(victims) ensures x in Elements(mine) {
        assert x in multiset(sorted);
      }
      forall r, v | r in mine && r !in victims && v in victims ensures v.createdAt <= r.createdAt {
        assert r in multiset(mine);
        var i :| 0 <= i < |sorted| && sorted[i] == r;
        var j :| 0 <= j < e && sorted[j] == v;
      }
    }
  }

  /** `_enforce_liked_limit` deletes as many rows as there are victims. */
  lemma ExcessDeletedCount(rows: seq<LikedRow>, guildId: int, userId: int)
    requires UniqueKeys(rows)
    ensures |rows| - |EnforceLiked(rows, guildId, userId)| == |LikedExcess(rows, guildId, userId)|
  {
    var victims := LikedExcess(rows, guildId, userId);
    var mine := UserLiked(rows, guildId, userId);
    ExcessFacts(rows, guildId, userId);
    UniqueKeysNoRepeats(rows);
    FilterMembers(rows, OfUser(guildId, userId));
    forall x | x in Elements(victims) ensures x in Elements(rows) {
      assert x in Elements(mine);
    }
    FilterOutCount(rows, NotIn(Elements(victims)), Elements(victims));
    ElementsCount(victims);
  }

  lemma {:induction false} FindAfterAppend(rows: seq<PlaylistRow>, p: PlaylistRow)
    requires FindPlaylist(rows, p.guildId, p.ownerId, p.name).None?
    ensures FindPlaylist(rows + [p], p.guildId, p.ownerId, p.name) == Some(p.id)
  {
    if rows != [] {
      FindAfterAppend(rows[1..], p);
      assert (rows + [p])[1..] == rows[1..] + [p];
    }
  }

  lemma SameIdSameRow(rows: seq<PlaylistRow>, i: nat, k: nat)
    requires DistinctPlaylists(rows) && i < |rows| && k < |rows| && rows[i].id == rows[k].id
    ensures i == k
  {
  }

  lemma SameNameSameRow(rows: seq<PlaylistRow>, i: nat, k: nat)
    requires DistinctPlaylists(rows) && i < |rows| && k < |rows|
    requires Names(rows[k], rows[i].guildId, rows[i].ownerId, rows[i].name)
    ensures i == k
  {
  }

  /** With unique names and ids, deleting the named playlist removes exactly its id. */
  lemma OnlyNamedHasId(rows: seq<PlaylistRow>, guildId: int, ownerId: int, name: string, id: int)
    requires DistinctPlaylists(rows)
    requires FindPlaylist(rows, guildId, ownerId, name) == Some(id)
    ensures PlaylistIds(Filter(rows, (p: PlaylistRow) => !Names(p, guildId, ownerId, name)))
              == PlaylistIds(rows) - {id}
  {
    var keep := (p: PlaylistRow) => !Names(p, guildId, ownerId, name);
    FilterMembers(rows, keep);
    var i :| 0 <= i < |rows| && Names(rows[i], guildId, ownerId, name) && rows[i].id == id;
    forall q | q in rows && q.id == id ensures !keep(q) {
      var k :| 0 <= k < |rows| && rows[k] == q;
      SameIdSameRow(rows, i, k);
    }
    forall q | q in rows && !keep(q) ensures q.id == id {
      var k :| 0 <= k < |rows| && rows[k] == q;
      SameNameSameRow(rows, i, k);
    }
    KeepAllButId(rows, keep, id);
  }

  /** Keeping every row but those with `id` keeps every id but `id`. */
  lemma KeepAllButId(rows: seq<PlaylistRow>, keep: PlaylistRow -> bool, id: int)
    requires forall q :: q in rows ==> (keep(q) <==> q.id != id)
    ensures PlaylistIds(Filter(rows, keep)) == PlaylistIds(rows) - {id}
  {
    FilterMembers(rows, keep);
    var kept := Filter(rows, keep);
    forall x ensures x in PlaylistIds(kept) <==> x in PlaylistIds(rows) - {id} {
      if x in PlaylistIds(kept) {
        var p :| p in kept && p.id == x;
        assert p in rows;
      }
      if x in PlaylistIds(rows) - {id} {
        var p :| p in rows && p.id == x;
        assert p in kept;
      }
    }
  }
}
