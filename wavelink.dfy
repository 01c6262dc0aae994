/** The part of the wavelink library the bot drives: tracks, the queue and loop modes, and the
    player whose state the commands change. Only the state the bot reads and writes is kept;
    the audio node behind the player is not part of this model. */
module Wavelink {
  import opened Wrappers

  /** `wavelink.QueueMode`: no loop, loop the current track, loop the whole queue. */
  datatype QueueMode = Normal | Loop | LoopAll

  /** `wavelink.AutoPlayMode`. */
  datatype AutoPlayMode = Enabled | Partial | Disabled

  /** A playable track: the fields the bot reads. `requesterId` is the `requester_id` entry of
      the track's extras, when one was recorded. Lengths and positions are milliseconds. */
  datatype Track = Track(
    identifier: string,
    title: Option<string>,
    author: Option<string>,
    length: int,
    isSeekable: bool,
    requesterId: Option<int>)

  /** The filters a player has: none, or those of a named preset (the gains and rates the
      preset sets are not modelled). */
  datatype Filters = NoFilters | PresetFilters(preset: string)

  /** A voice connection with its queue. `channel` is the voice channel's id while connected. */
  class Player {
    var queue: seq<Track>
    var mode: QueueMode
    var autoplay: AutoPlayMode
    var volume: int
    var current: Option<Track>
    var position: int
    var paused: bool
    var channel: Option<int>
    var filters: Filters
    var inactiveTimeout: Option<int>

    /** `channel.connect(cls=wavelink.Player)`: a fresh player in `channelId`, with an empty
        queue, no track and the library's defaults. */
    constructor Connect(channelId: int)
      ensures queue == [] && mode == Normal && autoplay == Disabled && volume == 100
      ensures current == None && position == 0 && !paused
      ensures channel == Some(channelId) && filters == NoFilters && inactiveTimeout == None
    {
      queue := [];
      mode := Normal;
      autoplay := Disabled;
      volume := 100;
      current := None;
      position := 0;
      paused := false;
      channel := Some(channelId);
      filters := NoFilters;
      inactiveTimeout := None;
    }

    /** `player.playing`: connected to a voice channel with a track loaded. */
    predicate Playing()
      reads this
    {
      channel.Some? && current.Some?
    }

    /** `queue.put_wait(tracks)`: appends the tracks in order. */
    method PutAll(tracks: seq<Track>)
      modifies this
      ensures queue == old(queue) + tracks
      ensures unchanged(this`mode, this`autoplay, this`volume, this`current, this`position)
      ensures unchanged(this`paused, this`channel, this`filters, this`inactiveTimeout)
    {
      queue := queue + tracks;
    }

    /** `queue.clear()`. */
    method Clear()
      modifies this
      ensures queue == []
      ensures unchanged(this`mode, this`autoplay, this`volume, this`current, this`position)
      ensures unchanged(this`paused, this`channel, this`filters, this`inactiveTimeout)
    {
      queue := [];
    }

    /** `queue.delete(i)`. */
    method DeleteAt(i: nat)
      requires i < |queue|
      modifies this
      ensures queue == old(queue)[..i] + old(queue)[i + 1..]
      ensures unchanged(this`mode, this`autoplay, this`volume, this`current, this`position)
      ensures unchanged(this`paused, this`channel, this`filters, this`inactiveTimeout)
    {
      queue := queue[..i] + queue[i + 1..];
    }

    /** `queue.put_at(i, t)`: inserts `t` so that it becomes the item at index `i`. */
    method PutAt(i: nat, t: Track)
      requires i <= |queue|
      modifies this
      ensures queue == old(queue)[..i] + [t] + old(queue)[i..]
      ensures unchanged(this`mode, this`autoplay, this`volume, this`current, this`position)
      ensures unchanged(this`paused, this`channel, this`filters, this`inactiveTimeout)
    {
      queue := queue[..i] + [t] + queue[i..];
    }

    /** `queue.get()`: removes and returns the first track; `None` stands for `QueueEmpty`. */
    method TakeFirst() returns (t: Option<Track>)
      modifies this
      ensures old(queue) == [] ==> t == None && queue == []
      ensures old(queue) != [] ==> t == Some(old(queue)[0]) && queue == old(queue)[1..]
      ensures unchanged(this`mode, this`autoplay, this`volume, this`current, this`position)
      ensures unchanged(this`paused, this`channel, this`filters, this`inactiveTimeout)
    {
      if queue == [] {
        t := None;
      } else {
        t := Some(queue[0]);
        queue := queue[1..];
      }
    }

    /** `player.play(track, start=, volume=, paused=)` that went through. */
    method Play(track: Track, start: int, vol: int, pause: bool)
      modifies this
      ensures current == Some(track) && position == start && volume == vol && paused == pause
      ensures unchanged(this`queue, this`mode, this`autoplay, this`channel, this`filters)
      ensures unchanged(this`inactiveTimeout)
    {
      current := Some(track);
      position := start;
      volume := vol;
      paused := pause;
    }

    /** `player.set_volume(v)` that went through. */
    method SetVolume(v: int)
      modifies this
      ensures volume == v
      ensures unchanged(this`queue, this`mode, this`autoplay, this`current, this`position)
      ensures unchanged(this`paused, this`channel, this`filters, this`inactiveTimeout)
    {
      volume := v;
    }

    /** `player.seek(ms)` that went through. */
    method Seek(ms: int)
      modifies this
      ensures position == ms
      ensures unchanged(this`queue, this`mode, this`autoplay, this`volume, this`current)
      ensures unchanged(this`paused, this`channel, this`filters, this`inactiveTimeout)
    {
      position := ms;
    }

    /** `player.set_filters(...)` that went through. */
    method SetFilters(f: Filters)
      modifies this
      ensures filters == f
      ensures unchanged(this`queue, this`mode, this`autoplay, this`volume, this`current)
      ensures unchanged(this`position, this`paused, this`channel, this`inactiveTimeout)
    {
      filters := f;
    }

    /** `player.pause(pause)` that went through. */
    method Pause(pause: bool)
      modifies this
      ensures paused == pause
      ensures unchanged(this`queue, this`mode, this`autoplay, this`volume, this`current)
      ensures unchanged(this`position, this`channel, this`filters, this`inactiveTimeout)
    {
      paused := pause;
    }

    /** `player.skip(force=True)` that went through: the current track stops. What starts next
        is decided by the track-end event of the node, which is not part of this model. */
    method StopTrack()
      modifies this
      ensures current == None
      ensures unchanged(this`queue, this`mode, this`autoplay, this`volume, this`position)
      ensures unchanged(this`paused, this`channel, this`filters, this`inactiveTimeout)
    {
      current := None;
    }

    /** `queue.reset()`: the queue is emptied and its loop mode goes back to normal. */
    method ResetQueue()
      modifies this
      ensures queue == [] && mode == Normal
      ensures unchanged(this`autoplay, this`volume, this`current, this`position)
      ensures unchanged(this`paused, this`channel, this`filters, this`inactiveTimeout)
    {
      queue := [];
      mode := Normal;
    }

    /** `queue.shuffle()`: the queue in the order `order`, which the random source chose among
        the orders of the same tracks. */
    method ShuffleAs(order: seq<Track>)
      requires multiset(order) == multiset(queue)
      modifies this
      ensures queue == order && multiset(queue) == multiset(old(queue))
      ensures unchanged(this`mode, this`autoplay, this`volume, this`current, this`position)
      ensures unchanged(this`paused, this`channel, this`filters, this`inactiveTimeout)
    {
      queue := order;
    }

    /** `player.disconnect()` that went through: the player leaves its channel. */
    method Disconnect()
      modifies this
      ensures channel == None
      ensures unchanged(this`queue, this`mode, this`autoplay, this`volume, this`current)
      ensures unchanged(this`position, this`paused, this`filters, this`inactiveTimeout)
    {
      channel := None;
    }
  }
}
