/** The library cog (bot/cogs/library.py): the short-lived cache of playlists read from the
    database, the order `/playliked` queues the liked tracks in, and the sort of `/sortliked`. */
module Library {
  import opened Wrappers
  import opened Strings
  import opened Seqs
  import opened Wavelink
  import Storage

  // ---------------------------------------------------------------------------------------
  // Playlist cache
  // ---------------------------------------------------------------------------------------

  /** `PLAYLIST_CACHE_TTL_SECONDS`. */
  const PlaylistCacheTtl: real := 300.0

  /** The key of `_PLAYLIST_CACHE`: guild, user and playlist name. */
  datatype CacheKey = CacheKey(guildId: int, userId: int, name: string)

  /** The cached tracks and the time they were stored. */
  datatype CacheEntry = CacheEntry(tracks: seq<Track>, storedAt: real)

  /** An entry has expired once `now - ts >= PLAYLIST_CACHE_TTL_SECONDS`. */
  predicate Expired(e: CacheEntry, now: real)
  {
    now - e.storedAt >= PlaylistCacheTtl
  }

  /** The keys the purge of a lookup at `now` deletes. */
  function ExpiredKeys(cache: map<CacheKey, CacheEntry>, now: real): (keys: set<CacheKey>)
    ensures forall k :: k in keys <==> k in cache && Expired(cache[k], now)
  {
    set k | k in cache && Expired(cache[k], now)
  }

  /** The cache after the purge at `now`: the entries that have not expired. */
  function Fresh(cache: map<CacheKey, CacheEntry>, now: real): (r: map<CacheKey, CacheEntry>)
    ensures forall k :: k in r <==> k in cache && !Expired(cache[k], now)
    ensures forall k :: k in r ==> r[k] == cache[k]
  {
    map k | k in cache && !Expired(cache[k], now) :: cache[k]
  }

  /** Purging twice at the same time purges nothing more, and a later purge removes all an
      earlier one did. */
  lemma FreshLater(cache: map<CacheKey, CacheEntry>, earlier: real, later: real)
    requires earlier <= later
    ensures Fresh(Fresh(cache, earlier), earlier) == Fresh(cache, earlier)
    ensures Fresh(Fresh(cache, earlier), later) == Fresh(cache, later)
  {
    assert Fresh(Fresh(cache, earlier), later).Keys == Fresh(cache, later).Keys;
  }

  /** A playlist stored at `storedAt` is returned by a lookup at `now` exactly while it is
      younger than the time to live, whatever else the cache holds. */
  lemma StoredThenFound(cache: map<CacheKey, CacheEntry>, key: CacheKey, tracks: seq<Track>,
                        storedAt: real, now: real)
    ensures var after := Fresh(cache[key := CacheEntry(tracks, storedAt)], now);
            (key in after <==> now - storedAt < PlaylistCacheTtl) &&
            (key in after ==> after[key].tracks == tracks)
  {
  }

  /** `_PLAYLIST_CACHE`. */
  class PlaylistCache {
    var entries: map<CacheKey, CacheEntry>

    constructor ()
      ensures entries == map[]
    {
      entries := map[];
    }

    /** `_get_cached_playlist` at time `now`: first every expired entry is deleted, one at a
        time, then the key is looked up. */
    method Get(key: CacheKey, now: real) returns (r: Option<seq<Track>>)
      modifies this
      ensures entries == Fresh(old(entries), now)
      ensures r.Some? <==> key in old(entries) && !Expired(old(entries)[key], now)
      ensures r.Some? ==> r.value == old(entries)[key].tracks
    {
      var expired := ExpiredKeys(entries, now);
      ghost var purged: set<CacheKey> := {};
      while expired != {}
        invariant expired !! purged
        invariant expired + purged == ExpiredKeys(old(entries), now)
        invariant entries == old(entries) - purged
        decreases |expired|
      {
        var k :| k in expired;
        entries := entries - {k};
        expired := expired - {k};
        purged := purged + {k};
      }
      assert entries.Keys == Fresh(old(entries), now).Keys;
      if key in entries {
        r := Some(entries[key].tracks);
      } else {
        r := None;
      }
    }

    /** `_set_cached_playlist` at time `now`: stores the tracks with the time, replacing any
        entry of the key. */
    method Set(key: CacheKey, tracks: seq<Track>, now: real)
      modifies this
      ensures entries == old(entries)[key := CacheEntry(tracks, now)]
    {
      entries := entries[key := CacheEntry(tracks, now)];
    }

    /** `_clear_playlist_cache`: drops the key's entry, if any. */
    method Clear(key: CacheKey)
      modifies this
      ensures entries == old(entries) - {key}
      ensures key !in old(entries) ==> entries == old(entries)
    {
      entries := entries - {key};
    }
  }

  // ---------------------------------------------------------------------------------------
  // /playliked
  // ---------------------------------------------------------------------------------------

  /** The orders `/playliked` accepts. */
  datatype LikedOrder = Oldest | Newest

  /** `order.strip().lower()`, which must be "oldest" or "newest". */
  function ParseLikedOrder(order: string): (r: Option<LikedOrder>)
    ensures r == Some(Oldest) <==> Normalise(order) == "oldest"
    ensures r == Some(Newest) <==> Normalise(order) == "newest"
  {
    var word := Normalise(order);
    if word == "oldest" then Some(Oldest) else if word == "newest" then Some(Newest) else None
  }

  /** The tracks in the order they are queued: `list_liked` gives them newest first, so
      "oldest" reverses that list. */
  function PlayLikedOrder(newestFirst: seq<Track>, order: LikedOrder): (tracks: seq<Track>)
    ensures multiset(tracks) == multiset(newestFirst)
  {
    ReversePermutes(newestFirst);
    if order == Oldest then Reverse(newestFirst) else newestFirst
  }

  lemma TracksOfReverse(rows: seq<Storage.LikedRow>)
    ensures Storage.TracksOf(Reverse(rows)) == Reverse(Storage.TracksOf(rows))
  {
  }

  /** "oldest" queues the user's liked tracks in the order they were liked, oldest first;
      "newest" in the reverse order. */
  lemma PlayLikedOldestFirst(rows: seq<Storage.LikedRow>, guildId: int, userId: int)
    ensures var mine := Storage.UserLiked(rows, guildId, userId);
            var listed := Storage.TracksOf(Storage.NewestFirst(mine));
            && PlayLikedOrder(listed, Oldest) == Storage.TracksOf(Storage.OldestFirst(mine))
            && PlayLikedOrder(listed, Newest) == Reverse(Storage.TracksOf(Storage.OldestFirst(mine)))
            && Ascending(Storage.OldestFirst(mine), Storage.LikedAt())
  {
    var mine := Storage.UserLiked(rows, guildId, userId);
    var oldest := Storage.OldestFirst(mine);
    TracksOfReverse(oldest);
    ReverseReverse(Storage.TracksOf(oldest));
    SortBySorts(mine, Storage.LikedAt());
  }

  // ---------------------------------------------------------------------------------------
  // /sortliked
  // ---------------------------------------------------------------------------------------

  /** `key.strip().lower()`, which must be "title" or "author"; `Some(true)` sorts by title. */
  function ParseSortKey(key: string): (r: Option<bool>)
    ensures r == Some(true) <==> Normalise(key) == "title"
    ensures r == Some(false) <==> Normalise(key) == "author"
  {
    var word := Normalise(key);
    if word == "title" then Some(true) else if word == "author" then Some(false) else None
  }

  /** The sort key: the lower-cased title (or author), a missing one read as "". */
  function SortKey(t: Track, byTitle: bool): string
  {
    Lower(if byTitle then t.title.GetOr("") else t.author.GetOr(""))
  }

  predicate KeyLe(x: Track, y: Track, byTitle: bool)
  {
    LexLe(SortKey(x, byTitle), SortKey(y, byTitle))
  }

  /** `le` orders every pair and is transitive. */
  ghost predicate TotalPreorder<T(!new)>(le: (T, T) -> bool)
  {
    (forall x, y :: le(x, y) || le(y, x)) &&
    (forall x, y, z :: le(x, y) && le(y, z) ==> le(x, z))
  }

  /** Comparing the keys as Python compares strings is a total preorder. */
  lemma KeyLePreorder(byTitle: bool)
    ensures TotalPreorder((x: Track, y: Track) => KeyLe(x, y, byTitle))
  {
    var le := (x: Track, y: Track) => KeyLe(x, y, byTitle);
    forall x: Track, y: Track ensures le(x, y) || le(y, x) {
      LexLeTotal(SortKey(x, byTitle), SortKey(y, byTitle));
    }
    forall x: Track, y: Track, z: Track | le(x, y) && le(y, z) ensures le(x, z) {
      LexLeTransitive(SortKey(x, byTitle), SortKey(y, byTitle), SortKey(z, byTitle));
    }
  }

  predicate SortedBy<T>(s: seq<T>, le: (T, T) -> bool)
  {
    forall i, j :: 0 <= i < j < |s| ==> le(s[i], s[j])
  }

  /** Ordered by the sort key. */
  predicate SortedByKey(s: seq<Track>, byTitle: bool)
  {
    forall i, j :: 0 <= i < j < |s| ==> KeyLe(s[i], s[j], byTitle)
  }

  /** `tracks.sort(key=...)`: the liked tracks sorted in place by their key. */
  method SortLiked(a: array<Track>, byTitle: bool)
    modifies a
    ensures SortedByKey(a[..], byTitle)
    ensures multiset(a[..]) == multiset(old(a[..]))
  {
    KeyLePreorder(byTitle);
    InsertionSort(a, (x: Track, y: Track) => KeyLe(x, y, byTitle));
  }

  /** Insertion sort in place by a total preorder. */
  method InsertionSort<T(!new)>(a: array<T>, le: (T, T) -> bool)
    requires TotalPreorder(le)
    modifies a
    ensures SortedBy(a[..], le)
    ensures multiset(a[..]) == multiset(old(a[..]))
  {
    if a.Length == 0 {
      return;
    }
    var i := 1;
    while i < a.Length
      invariant 1 <= i <= a.Length
      invariant SortedBy(a[..i], le)
      invariant multiset(a[..]) == multiset(old(a[..]))
    {
      InsertLast(a, i, le);
      i := i + 1;
    }
    assert a[..] == a[..a.Length];
  }

  /** The state of an insertion step: the element being moved sits at `j`; every other pair of
      `s[..i + 1]` is in order, and the moved element is in order with all after it. */
  ghost predicate Inserting<T(!new)>(s: seq<T>, i: int, j: int, le: (T, T) -> bool)
    requires 0 <= j <= i < |s|
  {
    (forall p, q :: 0 <= p < q <= i && p != j && q != j ==> le(s[p], s[q])) &&
    (forall q :: j < q <= i ==> le(s[j], s[q]))
  }

  /** One step of the insertion sort: `a[i]` moves left past every strictly larger element,
      so that `a[..i + 1]` is sorted. Equal elements keep their order. */
  method InsertLast<T(!new)>(a: array<T>, i: int, le: (T, T) -> bool)
    requires TotalPreorder(le)
    requires 0 < i < a.Length
    requires SortedBy(a[..i], le)
    modifies a
    ensures SortedBy(a[..i + 1], le)
    ensures multiset(a[..]) == multiset(old(a[..]))
  {
    var j := i;
    while j > 0 && !le(a[j - 1], a[j])
      invariant 0 <= j <= i
      invariant multiset(a[..]) == multiset(old(a[..]))
      invariant Inserting(a[..], i, j, le)
      decreases j
    {
      SwapDown(a, i, j, le);
      j := j - 1;
    }
    Inserted(a[..], i, j, le);
  }

  /** Swapping the moved element with a strictly larger left neighbour keeps the step's
      invariant one place further left. */
  method SwapDown<T(!new)>(a: array<T>, i: int, j: int, le: (T, T) -> bool)
    requires TotalPreorder(le)
    requires 0 < j <= i < a.Length
    requires Inserting(a[..], i, j, le) && !le(a[j - 1], a[j])
    modifies a
    ensures Inserting(a[..], i, j - 1, le)
    ensures multiset(a[..]) == multiset(old(a[..]))
    ensures a[..] == old(a[..])[j - 1 := old(a[j])][j := old(a[j - 1])]
  {
    a[j - 1], a[j] := a[j], a[j - 1];
  }

  /** When the moved element has stopped, `s[..i + 1]` is sorted. */
  lemma Inserted<T(!new)>(s: seq<T>, i: int, j: int, le: (T, T) -> bool)
    requires TotalPreorder(le)
    requires 0 <= j <= i < |s|
    requires Inserting(s, i, j, le) && (j == 0 || le(s[j - 1], s[j]))
    ensures SortedBy(s[..i + 1], le)
  {
  }
}
