/** The buttons of the player controller (`PlayerControlView` in bot/music/controller.py):
    the checks each button makes, in the order it makes them, and what a press that gets
    through does to the player, to the guild's settings and to the storage. */
module ControlView {
  import opened Wrappers
  import opened Wavelink
  import opened SettingsStore
  import opened Helpers
  import Music
  import Storage
  import Controller

  /** The buttons of the view. */
  datatype Button =
    | PauseResume | Skip | Stop | Leave | ShowQueue
    | VolumeDown | VolumeUp | SeekBack | SeekForward | CycleLoop
    | Shuffle | CycleAutoplay | Stay247 | Refresh | FilterPage

  /** Why a press is refused; each stands for the ephemeral message the button sends. */
  datatype Refusal =
    | NotInGuild      // "only in a server"
    | NoPermission    // the DJ/admin check failed
    | NotAdmin        // 24/7 is for admins only
    | NoPlayer        // the bot is not in a voice channel
    | NothingPlaying  // no track is playing
    | NotSeekable     // the track does not support seeking
    | EmptyQueue      // the queue is empty
    | NotInVoice      // the user is in no voice channel
    | OtherChannel    // the bot is in another voice channel

  /** What the user sees after a press: a refusal, the "could not ..." message of a player
      call that raised, or the refreshed controller. */
  datatype Reply = Refused(reason: Refusal) | Failed | Done

  /** The buttons guarded by `_is_dj_or_admin`. */
  predicate NeedsDj(b: Button)
  {
    b.Skip? || b.Stop? || b.Leave? || b.VolumeDown? || b.VolumeUp? || b.SeekBack? ||
    b.SeekForward? || b.CycleLoop? || b.Shuffle? || b.CycleAutoplay?
  }

  /** The button guarded by `_is_admin`. */
  predicate NeedsAdmin(b: Button)
  {
    b.Stay247?
  }

  /** The buttons that refuse when `player.playing` is false. */
  predicate NeedsPlaying(b: Button)
  {
    b.PauseResume? || b.Skip?
  }

  /** The buttons that need a current track that supports seeking. */
  predicate NeedsSeekable(b: Button)
  {
    b.SeekBack? || b.SeekForward?
  }

  /** The buttons guarded by `_ensure_same_channel`. */
  predicate NeedsSameChannel(b: Button)
  {
    !(b.ShowQueue? || b.Stay247? || b.Refresh? || b.FilterPage?)
  }

  /** The buttons whose player call may raise; the button then answers "could not ...". */
  predicate CallsNode(b: Button)
  {
    b.PauseResume? || b.Skip? || b.Stop? || b.Leave? || b.VolumeDown? || b.VolumeUp? ||
    b.SeekBack? || b.SeekForward? || b.Shuffle?
  }

  /** The voice channel of the user, when the user is a member sitting in one. */
  function VoiceOf(member: Option<Member>): Option<int>
  {
    if member.Some? then member.value.voiceChannel else None
  }

  /** What the checks read from the player. */
  datatype Seen = Seen(current: Option<Track>, queueEmpty: bool, channel: Option<int>)

  /** `player.playing` as the checks see it: connected, with a track loaded. */
  predicate SeenPlaying(s: Seen)
  {
    s.channel.Some? && s.current.Some?
  }

  // ---------------------------------------------------------------------------------------
  // The checks
  // ---------------------------------------------------------------------------------------

  /** `_ensure_same_channel`: the user must be in a voice channel, and in the player's. */
  function SameChannel(userVoice: Option<int>, playerChannel: Option<int>): (r: Option<Refusal>)
    ensures r.None? <==> EnsureSameChannel(userVoice, playerChannel)
    ensures r == Some(NotInVoice) <==> userVoice.None?
    ensures r.Some? ==> r.value == NotInVoice || r.value == OtherChannel
  {
    if userVoice.None? then Some(NotInVoice)
    else if !EnsureSameChannel(userVoice, playerChannel) then Some(OtherChannel)
    else None
  }

  /** What a press is allowed on: every check of the button holds. */
  predicate Allowed(b: Button, inGuild: bool, dj: bool, admin: bool, userVoice: Option<int>,
                    player: Option<Seen>)
  {
    inGuild && (NeedsDj(b) ==> dj) && (NeedsAdmin(b) ==> admin) && player.Some? &&
    (NeedsPlaying(b) ==> SeenPlaying(player.value)) &&
    (NeedsSeekable(b) ==> player.value.current.Some? && player.value.current.value.isSeekable) &&
    (b.Shuffle? ==> !player.value.queueEmpty) &&
    (NeedsSameChannel(b) ==> userVoice.Some? && userVoice == player.value.channel)
  }

  /** The checks of a button in the order the button makes them: guild, permission, player
      (and its track), seekable or non-empty queue, same channel. The first that fails
      decides the refusal. */
  function Gate(b: Button, inGuild: bool, dj: bool, admin: bool, userVoice: Option<int>,
                player: Option<Seen>): (r: Option<Refusal>)
    ensures r.None? <==> Allowed(b, inGuild, dj, admin, userVoice, player)
    ensures !inGuild ==> r == Some(NotInGuild)
    ensures inGuild && NeedsDj(b) && !dj ==> r == Some(NoPermission)
    ensures inGuild && NeedsAdmin(b) && !admin ==> r == Some(NotAdmin)
    ensures inGuild && (NeedsDj(b) ==> dj) && (NeedsAdmin(b) ==> admin) && player.None? ==>
              r == Some(if NeedsPlaying(b) || NeedsSeekable(b) then NothingPlaying else NoPlayer)
    ensures r == Some(NotInVoice) || r == Some(OtherChannel) ==> NeedsSameChannel(b)
    ensures inGuild && (NeedsDj(b) ==> dj) && (NeedsAdmin(b) ==> admin) && player.Some? &&
            NeedsPlaying(b) && !SeenPlaying(player.value) ==>
              r == Some(NothingPlaying)
  {
    if !inGuild then Some(NotInGuild)
    else if NeedsDj(b) && !dj then Some(NoPermission)
    else if NeedsAdmin(b) && !admin then Some(NotAdmin)
    else if player.None? then
      Some(if NeedsPlaying(b) || NeedsSeekable(b) then NothingPlaying else NoPlayer)
    else if NeedsPlaying(b) && !SeenPlaying(player.value) then Some(NothingPlaying)
    else if NeedsSeekable(b) && player.value.current.None? then Some(NothingPlaying)
    else if NeedsSeekable(b) && !player.value.current.value.isSeekable then Some(NotSeekable)
    else if b.Shuffle? && player.value.queueEmpty then Some(EmptyQueue)
    else if NeedsSameChannel(b) then SameChannel(userVoice, player.value.channel)
    else None
  }

  // ---------------------------------------------------------------------------------------
  // What a press does
  // ---------------------------------------------------------------------------------------

  /** The state of a player, as a value. */
  datatype PlayerState = PlayerState(
    queue: seq<Track>, mode: QueueMode, autoplay: AutoPlayMode, volume: int,
    current: Option<Track>, position: int, paused: bool, channel: Option<int>,
    filters: Filters, inactiveTimeout: Option<int>)

  function StateOf(p: Player): PlayerState
    reads p
  {
    PlayerState(p.queue, p.mode, p.autoplay, p.volume, p.current, p.position, p.paused,
                p.channel, p.filters, p.inactiveTimeout)
  }

  function SeenOf(p: Player?): Option<Seen>
    reads p
  {
    if p == null then None else Some(Seen(p.current, p.queue == [], p.channel))
  }

  /** The loop button: normal, then loop the track, then loop the queue, then normal. */
  function NextLoopMode(m: QueueMode): (n: QueueMode)
    ensures n != m
  {
    match m
    case Normal => Loop
    case Loop => LoopAll
    case LoopAll => Normal
  }

  /** Three presses of the loop button pass through every mode and come back. */
  lemma LoopCycle(m: QueueMode)
    ensures NextLoopMode(NextLoopMode(NextLoopMode(m))) == m
    ensures {m, NextLoopMode(m), NextLoopMode(NextLoopMode(m))} == {Normal, Loop, LoopAll}
  {
  }

  /** The autoplay button: enabled becomes partial, anything else becomes enabled. */
  function NextAutoplay(m: AutoPlayMode): (n: AutoPlayMode)
    ensures n != Disabled
    ensures n == Partial <==> m == Enabled
  {
    if m == Enabled then Partial else Enabled
  }

  /** The button flips what the controller shows for autoplay, and two presses from a state
      the button can produce come back to it. */
  lemma AutoplayToggles(m: AutoPlayMode)
    ensures Controller.AutoplayText(NextAutoplay(m)) == "Bật" <==>
            Controller.AutoplayText(m) != "Bật"
    ensures m != Disabled ==> NextAutoplay(NextAutoplay(m)) == m
  {
  }

  /** The volume buttons: five steps down or up, kept within 0..100. */
  function VolumeAfter(volume: int, up: bool): (v: int)
    ensures 0 <= v <= 100
  {
    Music.ClampVolume(if up then volume + Music.VolumeStep else volume - Music.VolumeStep)
  }

  /** Down undoes up, and up undoes down, wherever the clamp does not cut. */
  lemma VolumeStepsUndo(volume: int)
    ensures 0 <= volume <= 95 ==> VolumeAfter(VolumeAfter(volume, true), false) == volume
    ensures 5 <= volume <= 100 ==> VolumeAfter(VolumeAfter(volume, false), true) == volume
    ensures VolumeAfter(volume, true) >= VolumeAfter(volume, false)
  {
  }

  /** The seek buttons: ten seconds back, not before the start; ten seconds on, not past the
      end of the track. */
  lemma SeekStepsUndo(position: int, length: int)
    requires 0 <= position && position + Music.SeekStepMs <= length
    ensures Music.RewindTarget(Music.ForwardTarget(position, length, 10), 10) == position
    ensures Music.ForwardTarget(position, length, 10) == position + Music.SeekStepMs
  {
  }

  /** The player after a press the checks let through, when the player call went through
      (`ok`) or raised. `order` is the order the shuffle chose. */
  function Effect(b: Button, s: PlayerState, order: seq<Track>, ok: bool): (t: PlayerState)
  {
    match b
    case PauseResume => if ok then s.(paused := !s.paused) else s
    case Skip => if ok then s.(current := None) else s
    case Stop =>
      // `queue.reset()` comes first and stays done when the skip raises.
      var reset := s.(queue := [], mode := Normal);
      if ok then reset.(current := None) else reset
    case Leave => if ok then s.(channel := None) else s
    case VolumeDown => if ok then s.(volume := VolumeAfter(s.volume, false)) else s
    case VolumeUp => if ok then s.(volume := VolumeAfter(s.volume, true)) else s
    case SeekBack => if ok then s.(position := Music.RewindTarget(s.position, 10)) else s
    case SeekForward =>
      if ok && s.current.Some? then s.(position := Music.ForwardTarget(s.position, s.current.value.length, 10))
      else s
    case CycleLoop => s.(mode := NextLoopMode(s.mode))
    case Shuffle => if ok then s.(queue := order) else s
    case CycleAutoplay => s.(autoplay := NextAutoplay(s.autoplay))
    case ShowQueue => s
    case Stay247 => s
    case Refresh => s
    case FilterPage => s
  }

  /** Only the presser's own voice channel can change the player: every button that changes
      it checks the channel, and every one except pause/resume needs the DJ role. A shuffle
      keeps the tracks, and only skip, stop and leave can end the current track or the
      connection. */
  lemma {:induction false} EffectGuards(b: Button, s: PlayerState, order: seq<Track>, ok: bool)
    requires multiset(order) == multiset(s.queue)
    ensures Effect(b, s, order, ok) != s ==> NeedsSameChannel(b)
    ensures Effect(b, s, order, ok) != s && !b.PauseResume? ==> NeedsDj(b)
    ensures multiset(Effect(b, s, order, ok).queue) == multiset(s.queue) || b.Stop?
    ensures Effect(b, s, order, ok).current != s.current ==> b.Skip? || b.Stop?
    ensures Effect(b, s, order, ok).channel != s.channel ==> b.Leave?
    ensures 0 <= s.volume <= 100 ==> 0 <= Effect(b, s, order, ok).volume <= 100
  {
  }

  /** The guild record after the 24/7 button. */
  function Toggled247(s: GuildSettings): (t: GuildSettings)
    ensures t.stay247 != s.stay247
    ensures t == s.(stay247 := t.stay247)
  {
    s.(stay247 := !s.stay247)
  }

  /** The checks of a press in a guild. The DJ check reads the guild's settings through
      `get`, which stores a default record for a guild seen for the first time; it runs only
      for the DJ buttons and for a member who is not an admin. */
  method CheckPress(b: Button, g: int, member: Option<Member>, store: GuildSettingsStore, p: Player?)
    returns (gate: Option<Refusal>)
    modifies store
    ensures var (settings, created) := Lookup(old(store.data), g, store.Created());
      && gate == Gate(b, true, DjOrAdmin(member, true, Some(settings)), IsAdmin(member),
                      VoiceOf(member), SeenOf(p))
      && store.data == (if NeedsDj(b) && member.Some? && !IsAdmin(member) then created else old(store.data))
  {
    var dj := IsAdmin(member);
    if NeedsDj(b) && member.Some? && !IsAdmin(member) {
      var s := store.Get(g);
      dj := DjOrAdmin(member, true, Some(s));
    }
    gate := Gate(b, true, dj, IsAdmin(member), VoiceOf(member), SeenOf(p));
  }

  /** What a press the checks let through does to the player. `ok` says whether the player
      call went through. */
  method PlayerAction(b: Button, p: Player, order: seq<Track>, ok: bool) returns (reply: Reply)
    requires multiset(order) == multiset(p.queue)
    modifies p
    ensures StateOf(p) == Effect(b, old(StateOf(p)), order, ok)
    ensures reply == (if CallsNode(b) && !ok then Failed else Done)
  {
    reply := if CallsNode(b) && !ok then Failed else Done;
    match b
    case PauseResume => if ok { p.Pause(!p.paused); }
    case Skip => if ok { p.StopTrack(); }
    case Stop =>
      p.ResetQueue();
      if ok { p.StopTrack(); }
    case Leave => if ok { p.Disconnect(); }
    case VolumeDown => if ok { p.SetVolume(VolumeAfter(p.volume, false)); }
    case VolumeUp => if ok { p.SetVolume(VolumeAfter(p.volume, true)); }
    case SeekBack => if ok { p.Seek(Music.RewindTarget(p.position, 10)); }
    case SeekForward =>
      if ok && p.current.Some? { p.Seek(Music.ForwardTarget(p.position, p.current.value.length, 10)); }
    case CycleLoop => p.mode := NextLoopMode(p.mode);
    case Shuffle => if ok { p.ShuffleAs(order); }
    case CycleAutoplay => p.autoplay := NextAutoplay(p.autoplay);
    case Stay247 =>
    case ShowQueue =>
    case Refresh =>
    case FilterPage =>
  }

  /** The 24/7 button once through its checks: flips the guild's `stay_247` and upserts the
      record when the bot has a storage; `persisted` says whether the upsert went through (a
      failed one is only logged). */
  method ToggleStay247(g: int, store: GuildSettingsStore, storage: Storage.SqliteStorage?, persisted: bool)
    requires storage != null ==> storage.Valid()
    modifies store, storage
    ensures storage != null ==> storage.Valid()
    ensures var toggled := Toggled247(Lookup(old(store.data), g, store.Created()).0);
      && store.data == old(store.data)[g := toggled]
      && (storage != null ==>
            if persisted then storage.settings == old(storage.settings)[g := Storage.ToRow(toggled)]
            else unchanged(storage))
  {
    var s := store.Get(g);
    s := Toggled247(s);
    store.Set(g, s);
    if storage != null && persisted {
      storage.UpsertGuildSettings(g, s);
    }
  }

  /** A press on a button of the controller: the checks in the button's order, then its
      action. A refused press changes nothing but the settings record the DJ check may have
      created. */
  method PressButton(b: Button, guildId: Option<int>, member: Option<Member>,
                     store: GuildSettingsStore, storage: Storage.SqliteStorage?, p: Player?,
                     order: seq<Track>, ok: bool, persisted: bool)
    returns (reply: Reply)
    requires p != null ==> multiset(order) == multiset(p.queue)
    requires storage != null ==> storage.Valid()
    modifies store, storage, p
    ensures storage != null ==> storage.Valid()
    ensures !InGuild(guildId) ==>
      reply == Refused(NotInGuild) && unchanged(store) && (p != null ==> unchanged(p)) &&
      (storage != null ==> unchanged(storage))
    ensures InGuild(guildId) ==>
      var g := guildId.value;
      var (settings, created) := Lookup(old(store.data), g, store.Created());
      var gate := Gate(b, true, DjOrAdmin(member, true, Some(settings)), IsAdmin(member),
                       VoiceOf(member), old(SeenOf(p)));
      var asked := NeedsDj(b) && member.Some? && !IsAdmin(member);
      && (reply.Refused? <==> gate.Some?)
      && (gate.Some? ==> reply.reason == gate.value && (p != null ==> unchanged(p)) &&
                         (storage != null ==> unchanged(storage)) &&
                         store.data == (if asked then created else old(store.data)))
      && (gate.None? ==> p != null &&
                         StateOf(p) == Effect(b, old(StateOf(p)), order, ok) &&
                         reply == (if CallsNode(b) && !ok then Failed else Done))
      && (gate.None? && !b.Stay247? ==>
            (storage != null ==> unchanged(storage)) &&
            store.data == (if asked then created else old(store.data)))
      && (gate.None? && b.Stay247? ==>
            var toggled := Toggled247(settings);
            store.data == old(store.data)[g := toggled] &&
            (storage != null ==>
               if persisted then storage.settings == old(storage.settings)[g := Storage.ToRow(toggled)]
               else unchanged(storage)))
  {
    if !InGuild(guildId) {
      return Refused(NotInGuild);
    }
    var g := guildId.value;
    var gate := CheckPress(b, g, member, store, p);
    if gate.Some? {
      return Refused(gate.value);
    }
    reply := PlayerAction(b, p, order, ok);
    if b.Stay247? {
      ToggleStay247(g, store, storage, persisted);
    }
  }
}
