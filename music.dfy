/** The state-keeping parts of the music commands (bot/cogs/music.py): the per-user search
    rate limit, the per-guild skip vote, the queue edits of remove / move / bump / skipto /
    leavecleanup, the value clamps of volume / seek / forward / rewind, and the loop-mode names. */
module Music {
  import opened Wrappers
  import opened Strings
  import opened Wavelink
  import TimeFormat

  // ---------------------------------------------------------------------------------------
  // Search rate limit
  // ---------------------------------------------------------------------------------------

  /** At most this many searches per user ... */
  const SearchRateLimitCount: nat := 5
  /** ... within this many seconds. */
  const SearchRateLimitWindow: real := 60.0

  /** The request times later than `windowStart`, in their original order. */
  function Recent(stamps: seq<real>, windowStart: real): (r: seq<real>)
    ensures |r| <= |stamps|
    ensures forall t :: t in r <==> t in stamps && t > windowStart
  {
    if stamps == [] then []
    else (if stamps[0] > windowStart then [stamps[0]] else []) + Recent(stamps[1..], windowStart)
  }

  lemma {:induction false} RecentKeepsAll(stamps: seq<real>, windowStart: real)
    requires forall i :: 0 <= i < |stamps| ==> stamps[i] > windowStart
    ensures Recent(stamps, windowStart) == stamps
  {
    if stamps != [] {
      RecentKeepsAll(stamps[1..], windowStart);
    }
  }

  /** One `_check_rate_limit` call at time `now` on a user's request times: whether the search
      is allowed, the `remaining` it reports, and the request times kept for the user. */
  function RateLimit(stamps: seq<real>, now: real): (r: (bool, int, seq<real>))
  {
    var kept := Recent(stamps, now - SearchRateLimitWindow);
    if |kept| >= SearchRateLimitCount then (false, 0, kept)
    else (true, SearchRateLimitCount - |kept| - 1, kept + [now])
  }

  /** A search is allowed exactly when fewer than 5 requests fall in the last 60 seconds; an
      allowed one is recorded, a refused one is not; `remaining` is between 0 and 4; the kept
      times all lie in the window; and a user never holds more than 5 of them. */
  lemma RateLimitDecision(stamps: seq<real>, now: real)
    ensures var (allowed, remaining, after) := RateLimit(stamps, now);
      var kept := Recent(stamps, now - SearchRateLimitWindow);
      && (allowed <==> |kept| < SearchRateLimitCount)
      && (allowed ==> after == kept + [now] && remaining == SearchRateLimitCount - 1 - |kept|)
      && (!allowed ==> after == kept && remaining == 0)
      && 0 <= remaining < SearchRateLimitCount
      && (forall t :: t in after ==> now - SearchRateLimitWindow < t <= now || t in stamps)
      && (|kept| <= SearchRateLimitCount ==> |after| <= SearchRateLimitCount)
  {
  }

  /** The `remaining` count is exact: right after an allowed search, another search at the
      same moment is allowed exactly when `remaining` was positive; after a refused one,
      the next is refused too. */
  lemma RemainingIsExact(stamps: seq<real>, now: real)
    requires forall i :: 0 <= i < |stamps| ==> stamps[i] <= now
    ensures var (allowed, remaining, after) := RateLimit(stamps, now);
      (RateLimit(after, now).0 <==> allowed && remaining > 0)
  {
    var kept := Recent(stamps, now - SearchRateLimitWindow);
    var after := RateLimit(stamps, now).2;
    forall i | 0 <= i < |after|
      ensures after[i] > now - SearchRateLimitWindow
    {
      assert after[i] in after;
    }
    RecentKeepsAll(after, now - SearchRateLimitWindow);
  }

  /** `_SEARCH_RATE_LIMIT`: the request times of each user. */
  class SearchRateLimiter {
    var requests: map<int, seq<real>>

    constructor ()
      ensures requests == map[]
    {
      requests := map[];
    }

    /** Every user holds at most 5 request times. */
    predicate Bounded()
      reads this
    {
      forall u :: u in requests ==> |requests[u]| <= SearchRateLimitCount
    }

    /** `_check_rate_limit(user_id)` at time `now`. */
    method Check(userId: int, now: real) returns (allowed: bool, remaining: int)
      modifies this
      ensures var stamps := if userId in old(requests) then old(requests)[userId] else [];
        (allowed, remaining) == (RateLimit(stamps, now).0, RateLimit(stamps, now).1) &&
        requests == old(requests)[userId := RateLimit(stamps, now).2]
      ensures old(Bounded()) ==> Bounded()
    {
      var stamps := if userId in requests then requests[userId] else [];
      var kept := Recent(stamps, now - SearchRateLimitWindow);
      requests := requests[userId := kept];
      if |kept| >= SearchRateLimitCount {
        return false, 0;
      }
      requests := requests[userId := kept + [now]];
      allowed, remaining := true, SearchRateLimitCount - |kept| - 1;
    }
  }

  // ---------------------------------------------------------------------------------------
  // Vote skip
  // ---------------------------------------------------------------------------------------

  /** The votes needed to skip with `humans` listeners in the channel: `max(1, ceil(humans/2))`. */
  function VotesNeeded(humans: nat): (n: nat)
    ensures n >= 1 && 2 * n >= humans
    ensures n == 1 || 2 * (n - 1) < humans
  {
    if humans <= 1 then 1 else (humans + 1) / 2
  }

  /** What a vote is for: the current track's identifier and the target index, `int(index or
      0)`. The source joins the two into the text `"<identifier>:<index>"`, which tells apart
      exactly the pairs this datatype tells apart. */
  datatype VoteKey = VoteKey(identifier: string, index: int)

  function KeyIndex(index: Option<int>): int
  {
    if index.Some? then index.value else 0
  }

  /** A guild's open vote: what it is for and who voted. */
  datatype Ballot = Ballot(key: VoteKey, voters: set<int>)

  datatype VoteOutcome = Pending(count: nat, needed: nat) | Passed

  /** One `/voteskip` on the guild's open vote: a vote for another key starts afresh; the
      voter is added; below the threshold the vote stays open, at it the vote closes. */
  function CastVote(open: Option<Ballot>, key: VoteKey, voter: int, needed: nat)
    : (r: (VoteOutcome, Option<Ballot>))
  {
    var voters := (if open.Some? && open.value.key == key then open.value.voters else {}) + {voter};
    if |voters| < needed then (Pending(|voters|, needed), Some(Ballot(key, voters)))
    else (Passed, None)
  }

  /** A vote is counted once per voter, a vote for a different key discards the earlier
      voters, a pending vote reports fewer than the needed voters, and the vote passes exactly
      when the voters reach the threshold, which closes it. */
  lemma CastVoteCounts(open: Option<Ballot>, key: VoteKey, voter: int, needed: nat)
    ensures var (outcome, after) := CastVote(open, key, voter, needed);
      && (open.Some? && open.value.key == key && voter in open.value.voters && |open.value.voters| < needed
          ==> after == open && outcome == Pending(|open.value.voters|, needed))
      && (open.None? || open.value.key != key ==>
          outcome == (if needed <= 1 then Passed else Pending(1, needed)))
      && (outcome.Pending? ==> outcome.count < needed && after.Some? && after.value.key == key &&
                               voter in after.value.voters && |after.value.voters| == outcome.count)
      && (outcome.Passed? <==> after.None?)
  {
    var voters := (if open.Some? && open.value.key == key then open.value.voters else {}) + {voter};
    if open.Some? && open.value.key == key && voter in open.value.voters {
      assert voters == open.value.voters;
    }
    if open.None? || open.value.key != key {
      assert voters == {voter};
    }
  }

  /** The votes of `voters`, one after another, starting from `open`: the outcome of each. */
  function RunVotes(open: Option<Ballot>, key: VoteKey, voters: seq<int>, needed: nat)
    : seq<VoteOutcome>
    decreases |voters|
  {
    if voters == [] then []
    else
      var (outcome, after) := CastVote(open, key, voters[0], needed);
      [outcome] + RunVotes(after, key, voters[1..], needed)
  }

  lemma {:induction false} RunVotesFrom(seen: set<int>, key: VoteKey, voters: seq<int>, needed: nat)
    requires |seen| + |voters| == needed && 0 < |voters|
    requires forall i, j :: 0 <= i < j < |voters| ==> voters[i] != voters[j]
    requires forall i :: 0 <= i < |voters| ==> voters[i] !in seen
    ensures var outcomes := RunVotes(if seen == {} then None else Some(Ballot(key, seen)), key, voters, needed);
      |outcomes| == |voters| && outcomes[|voters| - 1] == Passed &&
      forall i :: 0 <= i < |voters| - 1 ==> outcomes[i] == Pending(|seen| + i + 1, needed)
    decreases |voters|
  {
    var open := if seen == {} then None else Some(Ballot(key, seen));
    var seen' := seen + {voters[0]};
    assert |seen'| == |seen| + 1;
    var (outcome, after) := CastVote(open, key, voters[0], needed);
    if |voters| > 1 {
      assert after == Some(Ballot(key, seen'));
      forall i | 0 <= i < |voters[1..]|
        ensures voters[1..][i] !in seen'
      {
        assert voters[1..][i] == voters[i + 1];
      }
      RunVotesFrom(seen', key, voters[1..], needed);
    }
  }

  /** With `needed` different voters voting for the same track and index, every vote before
      the last is pending with its running count and the last one passes. */
  lemma DistinctVotersPass(key: VoteKey, voters: seq<int>, needed: nat)
    requires |voters| == needed && needed >= 1
    requires forall i, j :: 0 <= i < j < |voters| ==> voters[i] != voters[j]
    ensures var outcomes := RunVotes(None, key, voters, needed);
      |outcomes| == needed && outcomes[needed - 1] == Passed &&
      forall i :: 0 <= i < needed - 1 ==> outcomes[i] == Pending(i + 1, needed)
  {
    RunVotesFrom({}, key, voters, needed);
  }

  /** `_VOTESKIP`: each guild's open vote. */
  class VoteSkipTracker {
    var ballots: map<int, Ballot>

    constructor ()
      ensures ballots == map[]
    {
      ballots := map[];
    }

    /** The vote-counting part of `/voteskip` by `voter` in a guild whose player is on the
        track `identifier` with `humans` listeners; other guilds' votes are untouched. */
    method Vote(guildId: int, identifier: string, index: Option<int>, voter: int, humans: nat)
      returns (outcome: VoteOutcome)
      modifies this
      ensures var open := if guildId in old(ballots) then Some(old(ballots)[guildId]) else None;
        var (o, after) := CastVote(open, VoteKey(identifier, KeyIndex(index)), voter, VotesNeeded(humans));
        outcome == o &&
        ballots == (if after.Some? then old(ballots)[guildId := after.value] else old(ballots) - {guildId})
    {
      var needed := VotesNeeded(humans);
      var key := VoteKey(identifier, KeyIndex(index));
      var voters: set<int> := {};
      if guildId in ballots && ballots[guildId].key == key {
        voters := ballots[guildId].voters;
      }
      voters := voters + {voter};
      ballots := ballots[guildId := Ballot(key, voters)];
      if |voters| < needed {
        return Pending(|voters|, needed);
      }
      ballots := ballots - {guildId};
      outcome := Passed;
    }
  }

  // ---------------------------------------------------------------------------------------
  // Queue edits
  // ---------------------------------------------------------------------------------------

  /** The queue without its item at index `i`. */
  function RemoveAt<T>(q: seq<T>, i: nat): (r: seq<T>)
    requires i < |q|
    ensures |r| == |q| - 1
    ensures forall k :: 0 <= k < i ==> r[k] == q[k]
    ensures forall k :: i <= k < |r| ==> r[k] == q[k + 1]
    ensures multiset(r) + multiset{q[i]} == multiset(q)
  {
    assert q == q[..i] + [q[i]] + q[i + 1..];
    q[..i] + q[i + 1..]
  }

  /** The queue with `t` inserted so that it sits at index `i`. */
  function InsertAt<T>(q: seq<T>, i: nat, t: T): (r: seq<T>)
    requires i <= |q|
    ensures |r| == |q| + 1 && r[i] == t
    ensures forall k :: 0 <= k < i ==> r[k] == q[k]
    ensures forall k :: i < k < |r| ==> r[k] == q[k - 1]
    ensures multiset(r) == multiset(q) + multiset{t}
  {
    assert q == q[..i] + q[i..];
    q[..i] + [t] + q[i..]
  }

  /** `/move`: the item at `src` taken out and put back at `dst`. */
  function MoveItem<T>(q: seq<T>, src: nat, dst: nat): seq<T>
    requires src < |q| && dst < |q|
  {
    InsertAt(RemoveAt(q, src), dst, q[src])
  }

  /** A move keeps the same items, puts the moved item at `dst`, and leaves the others in
      their relative order; moving an item onto its own index changes nothing. */
  lemma MoveItemPermutes<T>(q: seq<T>, src: nat, dst: nat)
    requires src < |q| && dst < |q|
    ensures var r := MoveItem(q, src, dst);
      |r| == |q| && multiset(r) == multiset(q) && r[dst] == q[src] &&
      RemoveAt(r, dst) == RemoveAt(q, src)
    ensures src == dst ==> MoveItem(q, src, dst) == q
  {
    var r := MoveItem(q, src, dst);
    var rest := RemoveAt(q, src);
    assert RemoveAt(r, dst) == rest;
    if src == dst {
      assert forall k :: 0 <= k < |q| ==> r[k] == q[k];
    }
  }

  /** `/bump`: the item at `i` moved to the front, the others after it in their order. */
  lemma BumpToFront<T>(q: seq<T>, i: nat)
    requires i < |q|
    ensures MoveItem(q, i, 0) == [q[i]] + q[..i] + q[i + 1..]
  {
  }

  /** What the queue commands report when they do not edit the queue. */
  datatype QueueError = EmptyQueue | InvalidIndex

  /** The 0-based index a 1-based user index names, when it names an item of `q`. */
  function QueueIndex<T>(q: seq<T>, index: int): (r: Result<nat, QueueError>)
    ensures r.Success? <==> q != [] && 1 <= index <= |q|
    ensures r.Success? ==> r.value == index - 1 && r.value < |q|
    ensures q == [] ==> r == Failure(EmptyQueue)
  {
    if q == [] then Failure(EmptyQueue)
    else if index - 1 < 0 || index - 1 >= |q| then Failure(InvalidIndex)
    else Success(index - 1)
  }

  /** Every field of the player but the queue stays as it was. */
  twostate predicate OnlyQueueChanged(p: Player)
    reads p
  {
    && p.mode == old(p.mode) && p.autoplay == old(p.autoplay) && p.volume == old(p.volume)
    && p.current == old(p.current) && p.position == old(p.position) && p.paused == old(p.paused)
    && p.channel == old(p.channel) && p.filters == old(p.filters)
    && p.inactiveTimeout == old(p.inactiveTimeout)
  }

  /** `/remove index`: deletes the `index`-th upcoming track (1 is the next one). */
  method Remove(p: Player, index: int) returns (r: Result<Track, QueueError>)
    modifies p
    ensures OnlyQueueChanged(p)
    ensures var i := QueueIndex(old(p.queue), index);
      && (i.Failure? ==> r == Failure(i.error) && p.queue == old(p.queue))
      && (i.Success? ==> r == Success(old(p.queue)[i.value]) && p.queue == RemoveAt(old(p.queue), i.value))
  {
    var i :- QueueIndex(p.queue, index);
    var track := p.queue[i];
    p.DeleteAt(i);
    r := Success(track);
  }

  /** `/move from to`: both 1-based indices must name upcoming tracks. */
  method Move(p: Player, fromIndex: int, toIndex: int) returns (r: Result<Track, QueueError>)
    modifies p
    ensures OnlyQueueChanged(p)
    ensures var (s, d) := (QueueIndex(old(p.queue), fromIndex), QueueIndex(old(p.queue), toIndex));
      && (old(p.queue) == [] ==> r == Failure(EmptyQueue) && p.queue == old(p.queue))
      && (old(p.queue) != [] && (s.Failure? || d.Failure?) ==> r == Failure(InvalidIndex) && p.queue == old(p.queue))
      && (s.Success? && d.Success? ==>
            r == Success(old(p.queue)[s.value]) && p.queue == MoveItem(old(p.queue), s.value, d.value))
  {
    if p.queue == [] {
      return Failure(EmptyQueue);
    }
    var src := fromIndex - 1;
    var dst := toIndex - 1;
    if src < 0 || src >= |p.queue| || dst < 0 || dst >= |p.queue| {
      return Failure(InvalidIndex);
    }
    var track := p.queue[src];
    p.DeleteAt(src);
    p.PutAt(dst, track);
    r := Success(track);
  }

  /** `/bump index`: moves the `index`-th upcoming track to the front. */
  method Bump(p: Player, index: int) returns (r: Result<Track, QueueError>)
    modifies p
    ensures OnlyQueueChanged(p)
    ensures var i := QueueIndex(old(p.queue), index);
      && (i.Failure? ==> r == Failure(i.error) && p.queue == old(p.queue))
      && (i.Success? ==> r == Success(old(p.queue)[i.value]) && p.queue == MoveItem(old(p.queue), i.value, 0))
  {
    var i :- QueueIndex(p.queue, index);
    var track := p.queue[i];
    p.DeleteAt(i);
    p.PutAt(0, track);
    r := Success(track);
  }

  /** `/skipto index` (and a passed `/voteskip index`): the tracks before the target are
      dropped, the ones after it stay queued in order, and the target is played at the
      player's volume when the play call goes through. */
  method SkipTo(p: Player, index: int, playOk: bool) returns (r: Result<Track, QueueError>)
    modifies p
    ensures var i := QueueIndex(old(p.queue), index);
      && (i.Failure? ==> r == Failure(i.error) && p.queue == old(p.queue) && OnlyQueueChanged(p))
      && (i.Success? ==> r == Success(old(p.queue)[i.value]) && p.queue == old(p.queue)[i.value + 1..] &&
                         p.volume == old(p.volume) && p.mode == old(p.mode) && p.channel == old(p.channel) &&
                         p.paused == old(p.paused) && p.autoplay == old(p.autoplay) &&
                         p.filters == old(p.filters) && p.inactiveTimeout == old(p.inactiveTimeout) &&
                         (playOk ==> p.current == Some(old(p.queue)[i.value]) && p.position == 0) &&
                         (!playOk ==> p.current == old(p.current) && p.position == old(p.position)))
  {
    var i :- QueueIndex(p.queue, index);
    var upcoming := p.queue;
    var target := upcoming[i];
    var keep := upcoming[i + 1..];
    p.Clear();
    if keep != [] {
      p.PutAll(keep);
    }
    if playOk {
      p.Play(target, 0, p.volume, p.paused);
    }
    r := Success(target);
  }

  /** A track stays on `/leavecleanup` when nobody is recorded as its requester or its
      requester is still among the humans in the voice channel. */
  predicate Stays(t: Track, present: set<int>)
  {
    t.requesterId.None? || t.requesterId.value in present
  }

  /** The tracks of `q` that stay, in queue order. */
  function Kept(q: seq<Track>, present: set<int>): (r: seq<Track>)
    ensures |r| <= |q|
  {
    if q == [] then [] else (if Stays(q[0], present) then [q[0]] else []) + Kept(q[1..], present)
  }

  /** The tracks of `q` that are dropped, in queue order. */
  function Dropped(q: seq<Track>, present: set<int>): (r: seq<Track>)
    ensures |r| <= |q|
  {
    if q == [] then [] else (if Stays(q[0], present) then [] else [q[0]]) + Dropped(q[1..], present)
  }

  /** Cleaning up splits the queue: every track is either kept or dropped. */
  lemma {:induction false} KeptAndDropped(q: seq<Track>, present: set<int>)
    ensures multiset(Kept(q, present)) + multiset(Dropped(q, present)) == multiset(q)
  {
    if q != [] {
      var kept, dropped := Kept(q[1..], present), Dropped(q[1..], present);
      KeptAndDropped(q[1..], present);
      assert q == [q[0]] + q[1..];
      assert multiset(q) == multiset{q[0]} + multiset(kept) + multiset(dropped);
      if Stays(q[0], present) {
        assert Kept(q, present) == [q[0]] + kept;
        assert multiset([q[0]] + kept) == multiset{q[0]} + multiset(kept);
        assert Dropped(q, present) == dropped;
      } else {
        assert Kept(q, present) == kept;
        assert Dropped(q, present) == [q[0]] + dropped;
        assert multiset([q[0]] + dropped) == multiset{q[0]} + multiset(dropped);
      }
    }
  }

  /** The kept tracks are exactly those whose requester is unknown or still present, and the
      dropped ones are those whose requester left. */
  lemma {:induction false} KeptExactly(q: seq<Track>, present: set<int>)
    ensures forall t :: t in Kept(q, present) <==> t in q && Stays(t, present)
    ensures forall t :: t in Dropped(q, present) <==> t in q && !Stays(t, present)
  {
    if q != [] {
      KeptExactly(q[1..], present);
      assert q == [q[0]] + q[1..];
    }
  }

  /** A queue whose requesters are all present is left as it is. */
  lemma {:induction false} KeptAllPresent(q: seq<Track>, present: set<int>)
    requires forall k :: 0 <= k < |q| ==> Stays(q[k], present)
    ensures Kept(q, present) == q
  {
    if q != [] {
      KeptAllPresent(q[1..], present);
    }
  }

  lemma {:induction false} KeptAppend(q: seq<Track>, t: Track, present: set<int>)
    ensures Kept(q + [t], present) == Kept(q, present) + (if Stays(t, present) then [t] else [])
  {
    if q == [] {
      assert q + [t] == [t];
    } else {
      var head := if Stays(q[0], present) then [q[0]] else [];
      var last := if Stays(t, present) then [t] else [];
      assert (q + [t])[0] == q[0] && (q + [t])[1..] == q[1..] + [t];
      KeptAppend(q[1..], t, present);
      calc {
        Kept(q + [t], present);
        head + Kept(q[1..] + [t], present);
        head + (Kept(q[1..], present) + last);
        (head + Kept(q[1..], present)) + last;
      }
    }
  }

  /** The loop of `/leavecleanup` over the upcoming tracks: the tracks to keep, in order, and
      the number removed. */
  method CleanupTracks(upcoming: seq<Track>, present: set<int>) returns (keep: seq<Track>, removed: nat)
    ensures keep == Kept(upcoming, present)
    ensures removed == |upcoming| - |keep|
  {
    keep := [];
    removed := 0;
    var i := 0;
    while i < |upcoming|
      invariant 0 <= i <= |upcoming|
      invariant keep == Kept(upcoming[..i], present)
      invariant removed == i - |keep|
    {
      var t := upcoming[i];
      KeptAppend(upcoming[..i], t, present);
      assert upcoming[..i + 1] == upcoming[..i] + [t];
      if t.requesterId.None? || t.requesterId.value in present {
        keep := keep + [t];
      } else {
        removed := removed + 1;
      }
      i := i + 1;
    }
    assert upcoming[..i] == upcoming;
  }

  /** `/leavecleanup`, `present` being the ids of the humans in the player's channel: keeps
      the staying tracks in order and reports how many were removed. */
  method LeaveCleanup(p: Player, present: set<int>) returns (removed: nat)
    modifies p
    ensures OnlyQueueChanged(p)
    ensures p.queue == Kept(old(p.queue), present)
    ensures removed == |old(p.queue)| - |p.queue|
  {
    var keep;
    keep, removed := CleanupTracks(p.queue, present);
    p.Clear();
    if keep != [] {
      p.PutAll(keep);
    }
  }

  // ---------------------------------------------------------------------------------------
  // Clamps
  // ---------------------------------------------------------------------------------------

  const VolumeMin := 0
  const VolumeMax := 100
  const VolumeStep := 5
  const SeekStepMs := 10000

  /** `max(0, min(value, 100))` of `/volume` and the volume buttons. */
  function ClampVolume(value: int): (v: int)
    ensures VolumeMin <= v <= VolumeMax
    ensures VolumeMin <= value <= VolumeMax ==> v == value
    ensures value < VolumeMin ==> v == VolumeMin
    ensures value > VolumeMax ==> v == VolumeMax
  {
    if value < VolumeMin then VolumeMin else if value > VolumeMax then VolumeMax else value
  }

  /** `/seek`'s `max(0, min(ms, length))`: the parsed position kept within the track. */
  function ClampSeek(ms: int, length: int): (r: int)
    ensures 0 <= r
    ensures length >= 0 ==> r <= length
    ensures 0 <= ms <= length ==> r == ms
    ensures ms > length >= 0 ==> r == length
    ensures ms < 0 || length < 0 ==> r == 0
  {
    var m := if ms < length then ms else length;
    if m < 0 then 0 else m
  }

  /** `/seek time`: the parsed position clamped to the track, or the parse error. */
  function SeekTarget(time: string, length: int): (r: Result<int, TimeFormat.TimeError>)
    ensures r.Success? <==> TimeFormat.ParseTimeToMs(time).Success?
    ensures r.Success? ==> r.value == ClampSeek(TimeFormat.ParseTimeToMs(time).value, length)
    ensures r.Failure? ==> r.error == TimeFormat.ParseTimeToMs(time).error
  {
    var ms :- TimeFormat.ParseTimeToMs(time);
    Success(ClampSeek(ms, length))
  }

  /** Seeking to a position as the player shows it (`format_ms`) lands on the start of that
      second: at most one second before the position, and never past the track's end. */
  lemma {:induction false} SeekToShownPosition(position: int, length: int)
    requires 0 <= position <= length
    ensures SeekTarget(TimeFormat.FormatMs(position), length).Success?
    ensures var r := SeekTarget(TimeFormat.FormatMs(position), length).value;
      r <= position < r + 1000 && r % 1000 == 0
  {
    TimeFormat.FormatThenParse(position);
  }

  /** `/forward seconds`: `min(length, position + max(0, seconds) * 1000)`. */
  function ForwardTarget(position: int, length: int, seconds: int): (r: int)
    ensures var step := (if seconds < 0 then 0 else seconds) * 1000;
      && r <= length && r <= position + step
      && (position <= length ==> position <= r)
      && (position + step <= length ==> r == position + step)
      && (position + step > length ==> r == length)
  {
    var s := if seconds < 0 then 0 else seconds;
    var target := position + s * 1000;
    if length < target then length else target
  }

  /** `/rewind seconds`: `max(0, position - max(0, seconds) * 1000)`. */
  function RewindTarget(position: int, seconds: int): (r: int)
    ensures var step := (if seconds < 0 then 0 else seconds) * 1000;
      && 0 <= r && r >= position - step
      && (position >= 0 ==> r <= position)
      && (position - step >= 0 ==> r == position - step)
      && (position - step < 0 ==> r == 0)
  {
    var s := if seconds < 0 then 0 else seconds;
    var target := position - s * 1000;
    if target < 0 then 0 else target
  }

  /** Rewinding by the seconds just skipped forward returns to the start position, and the
      other way round, whenever neither move hit an end of the track. */
  lemma {:induction false} ForwardRewindInverse(position: int, length: int, seconds: nat)
    ensures 0 <= position && position + seconds * 1000 <= length ==>
      RewindTarget(ForwardTarget(position, length, seconds), seconds) == position
    ensures position <= length && position - seconds * 1000 >= 0 ==>
      ForwardTarget(RewindTarget(position, seconds), length, seconds) == position
  {
  }

  // ---------------------------------------------------------------------------------------
  // Loop mode
  // ---------------------------------------------------------------------------------------

  /** The word `/loop` accepts for each mode. */
  function LoopModeName(m: QueueMode): string
  {
    match m
    case Normal => "off"
    case Loop => "track"
    case LoopAll => "queue"
  }

  /** `/loop mode`: the mode named by the trimmed, lower-cased word, if any. */
  function ParseLoopMode(mode: string): (r: Option<QueueMode>)
    ensures r.Some? ==> Lower(Strip(mode)) == LoopModeName(r.value)
    ensures r.None? ==> Lower(Strip(mode)) !in {"off", "track", "queue"}
  {
    var word := Lower(Strip(mode));
    if word == "off" then Some(Normal)
    else if word == "track" then Some(Loop)
    else if word == "queue" then Some(LoopAll)
    else None
  }

  /** Every mode's name is accepted and names that mode. */
  lemma ParseLoopModeName(m: QueueMode)
    ensures ParseLoopMode(LoopModeName(m)) == Some(m)
  {
    var name := LoopModeName(m);
    StripUnchanged(name);
    assert Lower(name) == name;
  }
}
