/** Permission checks and the rebuild of a stuck player session (bot/utils/helpers.py). */
module Helpers {
  import opened Wrappers
  import opened Wavelink
  import opened SettingsStore

  /** The interaction's user seen as a guild member: its guild permissions, the ids of its
      roles and the voice channel it sits in. A user that is not a member is `None`. */
  datatype Member = Member(administrator: bool, manageGuild: bool, roleIds: seq<int>,
                           voiceChannel: Option<int>)

  /** `is_admin`: a member with the administrator or the manage-guild permission. */
  predicate IsAdmin(member: Option<Member>)
  {
    member.Some? && (member.value.administrator || member.value.manageGuild)
  }

  /** `interaction.guild_id` is truthy: there is a guild and its id is not the falsy 0. */
  predicate InGuild(guildId: Option<int>)
  {
    guildId.Some? && guildId.value != 0
  }

  /** `any(r.id == roleId for r in roles)`. */
  function HasRole(roleIds: seq<int>, roleId: int): (r: bool)
    ensures r <==> roleId in roleIds
  {
    if roleIds == [] then false else roleIds[0] == roleId || HasRole(roleIds[1..], roleId)
  }

  /** The decision of `is_dj_or_admin`, given the guild's settings when the bot has a
      settings store (`None` when it has none). A DJ role id that is missing or 0 (falsy)
      lets every member through. */
  function DjOrAdmin(member: Option<Member>, guildPresent: bool, settings: Option<GuildSettings>)
    : (r: bool)
    ensures IsAdmin(member) ==> r
    ensures !IsAdmin(member) ==>
      (r <==> member.Some? && guildPresent && settings.Some? &&
              (settings.value.djRoleId in {None, Some(0)} ||
               settings.value.djRoleId.value in member.value.roleIds))
  {
    if IsAdmin(member) then true
    else if member.None? || !guildPresent then false
    else if settings.None? then false
    else match settings.value.djRoleId
      case None => true
      case Some(dj) => dj == 0 || HasRole(member.value.roleIds, dj)
  }

  /** `is_dj_or_admin`. Reading the guild's settings goes through the store's `get`, which
      creates the guild's record when it is missing; that happens only when the member is not
      an admin and is in a guild. */
  method IsDjOrAdmin(store: GuildSettingsStore?, member: Option<Member>, guildId: Option<int>)
    returns (r: bool)
    modifies store
    ensures var asked := !IsAdmin(member) && member.Some? && InGuild(guildId) && store != null;
      && (asked ==> (var (s, after) := Lookup(old(store.data), guildId.value, store.Created());
                     store.data == after && r == DjOrAdmin(member, true, Some(s))))
      && (!asked ==> (store != null ==> store.data == old(store.data)) &&
                     r == DjOrAdmin(member, InGuild(guildId), None))
  {
    if IsAdmin(member) {
      return true;
    }
    if member.None? || !InGuild(guildId) {
      return false;
    }
    if store == null {
      return false;
    }
    var s := store.Get(guildId.value);
    r := DjOrAdmin(member, true, Some(s));
  }

  /** `ensure_same_channel`: the user is in a voice channel and it is the player's channel. */
  function EnsureSameChannel(userVoice: Option<int>, playerChannel: Option<int>): (r: bool)
    ensures r ==> userVoice.Some? && userVoice == playerChannel
    ensures userVoice.Some? && userVoice == playerChannel ==> r
  {
    match (userVoice, playerChannel)
    case (Some(u), Some(c)) => u == c
    case _ => false
  }

  /** What `rebuild_player_session` reads from the old player before disconnecting it. */
  datatype Snapshot = Snapshot(queue: seq<Track>, current: Option<Track>, position: int,
                               paused: bool, volume: int, mode: QueueMode, autoplay: AutoPlayMode)

  /** The state of a player as far as the rebuild is concerned. */
  datatype Session = Session(queue: seq<Track>, current: Option<Track>, position: int,
                             paused: bool, volume: int, mode: QueueMode, autoplay: AutoPlayMode)

  /** Whether the calls into the voice connection that the rebuild makes went through. A
      failed disconnect, volume change or play is logged and the rebuild carries on; a failed
      connect (a time-out or a client error) ends it with `None`. */
  datatype Outcomes = Outcomes(disconnectOk: bool, connectOk: bool, setVolumeOk: bool, playOk: bool)

  /** The volume the rebuild plays at: the old player's, else the guild's default, else the
      new player's own volume. */
  function RestoreVolume(saved: Option<int>, settingsVolume: Option<int>, playerVolume: int): (v: int)
    ensures saved.Some? ==> v == saved.value
    ensures saved.None? && settingsVolume.Some? ==> v == settingsVolume.value
    ensures saved.None? && settingsVolume.None? ==> v == playerVolume
  {
    if saved.Some? then saved.value
    else if settingsVolume.Some? then settingsVolume.value
    else playerVolume
  }

  /** The new player after the first restore steps: autoplay (default partial) and loop mode
      restored, the volume set when the call goes through, the queue put back. */
  function Prepared(snap: Option<Snapshot>, settingsVolume: Option<int>, setVolumeOk: bool): Session
  {
    var target := if snap.Some? then Some(snap.value.volume) else settingsVolume;
    Session(if snap.Some? then snap.value.queue else [], None, 0, false,
            if setVolumeOk && target.Some? then target.value else 100,
            if snap.Some? then snap.value.mode else Normal,
            if snap.Some? then snap.value.autoplay else Partial)
  }

  /** The last restore step on the prepared session `s`: the old current track replayed where
      it was, or else, when asked to, the first queued track taken from the queue and started.
      A play that fails leaves no track loaded. */
  function Resumed(s: Session, snap: Option<Snapshot>, settingsVolume: Option<int>, startIfIdle: bool,
                   playOk: bool): Session
  {
    var v := RestoreVolume(if snap.Some? then Some(snap.value.volume) else None, settingsVolume, s.volume);
    if snap.Some? && snap.value.current.Some? then
      if playOk then s.(current := snap.value.current,
                        position := if snap.value.position < 0 then 0 else snap.value.position,
                        paused := snap.value.paused, volume := v)
      else s
    else if startIfIdle && s.queue != [] then
      if playOk then s.(queue := s.queue[1..], current := Some(s.queue[0]), position := 0, volume := v)
      else s.(queue := s.queue[1..])
    else s
  }

  /** The state a fresh player reaches after all the rebuild's restore steps. */
  function Restored(snap: Option<Snapshot>, settingsVolume: Option<int>, startIfIdle: bool,
                    setVolumeOk: bool, playOk: bool): Session
  {
    Resumed(Prepared(snap, settingsVolume, setVolumeOk), snap, settingsVolume, startIfIdle, playOk)
  }

  /** Current track first, then the queue. */
  function Tracks(current: Option<Track>, queue: seq<Track>): seq<Track>
  {
    (if current.Some? then [current.value] else []) + queue
  }

  /** When the replay or start goes through, the new session holds the old session's tracks
      in the same order, with the same loop mode and autoplay, and the current track resumes
      at a non-negative position with the old pause state. */
  lemma RestoredKeepsTracks(snap: Snapshot, settingsVolume: Option<int>, startIfIdle: bool,
                            setVolumeOk: bool)
    ensures var s := Restored(Some(snap), settingsVolume, startIfIdle, setVolumeOk, true);
      && s.mode == snap.mode && s.autoplay == snap.autoplay
      && (snap.current.Some? || startIfIdle ==> Tracks(s.current, s.queue) == Tracks(snap.current, snap.queue))
      && (snap.current.Some? ==> s.position == (if snap.position < 0 then 0 else snap.position)
                                 && s.paused == snap.paused && s.volume == snap.volume)
  {
    var s := Restored(Some(snap), settingsVolume, startIfIdle, setVolumeOk, true);
    if snap.current.None? && startIfIdle && snap.queue != [] {
      assert Tracks(s.current, s.queue) == [snap.queue[0]] + snap.queue[1..];
    }
  }

  /** Without an old player the rebuild starts with autoplay partial and no loop, and plays at
      the guild's default volume (or 100 without settings). */
  lemma RestoredFromNothing(settingsVolume: Option<int>, startIfIdle: bool, setVolumeOk: bool,
                            playOk: bool)
    ensures var s := Restored(None, settingsVolume, startIfIdle, setVolumeOk, playOk);
      s == Session([], None, 0, false,
                   if setVolumeOk && settingsVolume.Some? then settingsVolume.value else 100,
                   Normal, Partial)
  {
  }

  /** The player's state as a `Session`. */
  function SessionOf(p: Player): Session
    reads p
  {
    Session(p.queue, p.current, p.position, p.paused, p.volume, p.mode, p.autoplay)
  }

  function SnapshotOf(p: Player): Snapshot
    reads p
  {
    Snapshot(p.queue, p.current, p.position, p.paused, p.volume, p.mode, p.autoplay)
  }

  /** The voice channel the rebuild connects to: the one asked for, else the old player's,
      else the user's. */
  function TargetChannel(asked: Option<int>, oldChannel: Option<int>, userVoice: Option<int>)
    : (c: Option<int>)
    ensures asked.Some? ==> c == asked
    ensures asked.None? && oldChannel.Some? ==> c == oldChannel
    ensures asked.None? && oldChannel.None? ==> c == userVoice
  {
    if asked.Some? then asked else if oldChannel.Some? then oldChannel else userVoice
  }

  /** The first restore steps of `rebuild_player_session` on the freshly connected player. */
  method Prepare(p: Player, snap: Option<Snapshot>, settingsVolume: Option<int>, setVolumeOk: bool)
    requires SessionOf(p) == Session([], None, 0, false, 100, Normal, Disabled)
    modifies p
    ensures SessionOf(p) == Prepared(snap, settingsVolume, setVolumeOk)
    ensures p.channel == old(p.channel) && p.inactiveTimeout == old(p.inactiveTimeout)
  {
    p.autoplay := if snap.Some? then snap.value.autoplay else Partial;
    if snap.Some? {
      p.mode := snap.value.mode;
    }
    var volumeTarget := if snap.Some? then Some(snap.value.volume) else settingsVolume;
    if setVolumeOk && volumeTarget.Some? {
      p.SetVolume(volumeTarget.value);
    }
    if snap.Some? && snap.value.queue != [] {
      p.PutAll(snap.value.queue);
    }
  }

  /** The last restore step of `rebuild_player_session`. */
  method Resume(p: Player, snap: Option<Snapshot>, settingsVolume: Option<int>, startIfIdle: bool,
                playOk: bool)
    requires p.current == None && p.position == 0 && !p.paused
    modifies p
    ensures SessionOf(p) == Resumed(old(SessionOf(p)), snap, settingsVolume, startIfIdle, playOk)
    ensures p.channel == old(p.channel) && p.inactiveTimeout == old(p.inactiveTimeout)
  {
    var v := RestoreVolume(if snap.Some? then Some(snap.value.volume) else None, settingsVolume, p.volume);
    if snap.Some? && snap.value.current.Some? {
      if playOk {
        p.Play(snap.value.current.value, if snap.value.position < 0 then 0 else snap.value.position,
               v, snap.value.paused);
      }
    } else if startIfIdle && p.queue != [] && !p.Playing() {
      var next := p.TakeFirst();
      if playOk {
        p.Play(next.value, 0, v, p.paused);
      }
    }
  }

  /** The second half of `rebuild_player_session`: connect a new player to `channelId`, read
      the guild's settings, and restore the snapshot onto the new player. */
  method Reconnect(channelId: int, snap: Option<Snapshot>, guildId: int, startIfIdle: bool,
                   store: GuildSettingsStore?, idleTimeout: Option<int>, outcomes: Outcomes)
    returns (p: Player)
    modifies store
    ensures fresh(p) && p.channel == Some(channelId) && p.inactiveTimeout == idleTimeout
    ensures store != null ==> store.data == Lookup(old(store.data), guildId, store.Created()).1
    ensures SessionOf(p) == Restored(snap,
                                     if store != null
                                     then Some(Lookup(old(store.data), guildId, store.Created()).0.volumeDefault)
                                     else None,
                                     startIfIdle, outcomes.setVolumeOk, outcomes.playOk)
  {
    p := new Player.Connect(channelId);
    var settingsVolume: Option<int> := None;
    if store != null {
      var s := store.Get(guildId);
      settingsVolume := Some(s.volumeDefault);
    }
    p.inactiveTimeout := idleTimeout;
    Prepare(p, snap, settingsVolume, outcomes.setVolumeOk);
    Resume(p, snap, settingsVolume, startIfIdle, outcomes.playOk);
  }

  /** `rebuild_player_session`. `voiceClient` is the guild's current wavelink player, used when
      no old player is given; `userVoice` is the voice channel of the member who asked;
      `store` is the bot's settings store and `idleTimeout` the configured inactivity
      time-out, each absent when the bot has none. The old player is read, then disconnected;
      a new player is connected and restored as `Restored` says. */
  method RebuildPlayerSession(guildPresent: bool, guildId: int, voiceClient: Player?, oldPlayer: Player?,
                              channel: Option<int>, userVoice: Option<int>, startIfIdle: bool,
                              store: GuildSettingsStore?, idleTimeout: Option<int>, outcomes: Outcomes)
    returns (p: Player?)
    modifies voiceClient, oldPlayer, store
    ensures !guildPresent ==> p == null
    ensures var o: Player? := if oldPlayer != null then oldPlayer else voiceClient;
      var target := TargetChannel(channel, if o != null then old(o.channel) else None, userVoice);
      && (guildPresent && target.None? ==> p == null)
      && (guildPresent && target.Some? && !outcomes.connectOk ==> p == null)
      && (guildPresent && target.Some? && outcomes.connectOk ==>
            p != null && fresh(p) && p.channel == target && p.inactiveTimeout == idleTimeout &&
            SessionOf(p) == Restored(if o != null then Some(old(SnapshotOf(o))) else None,
                                     if store != null
                                     then Some(Lookup(old(store.data), guildId, store.Created()).0.volumeDefault)
                                     else None,
                                     startIfIdle, outcomes.setVolumeOk, outcomes.playOk))
      // Nothing is touched before a target channel is known.
      && (!guildPresent || target.None? ==>
            (voiceClient != null ==> unchanged(voiceClient)) &&
            (oldPlayer != null ==> unchanged(oldPlayer)) && (store != null ==> unchanged(store)))
      // The old player is disconnected when that succeeds; its queue and track are only read.
      && (guildPresent && target.Some? && o != null ==>
            o.channel == (if outcomes.disconnectOk then None else old(o.channel)) &&
            SnapshotOf(o) == old(SnapshotOf(o)) && unchanged(o`filters, o`inactiveTimeout))
      && (guildPresent && target.Some? && voiceClient != null && voiceClient != o ==>
            unchanged(voiceClient))
      // The settings store records the guild's settings only once the new player connected.
      && (store != null && guildPresent && target.Some? && outcomes.connectOk ==>
            store.data == Lookup(old(store.data), guildId, store.Created()).1)
      && (guildPresent && target.Some? && !outcomes.connectOk && store != null ==>
            unchanged(store))
  {
    if !guildPresent {
      return null;
    }
    var o := if oldPlayer != null then oldPlayer else voiceClient;
    var oldChannel := if o != null then o.channel else None;
    var target := TargetChannel(channel, oldChannel, userVoice);
    if target.None? {
      return null;
    }
    var snap: Option<Snapshot> := None;
    if o != null {
      snap := Some(SnapshotOf(o));
      if outcomes.disconnectOk {
        o.Disconnect();
      }
    }
    if !outcomes.connectOk {
      return null;
    }
    p := Reconnect(target.value, snap, guildId, startIfIdle, store, idleTimeout, outcomes);
  }
}
