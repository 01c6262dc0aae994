# A verified model of the music bot's core

This project models the core of a Discord music bot that is written in Python and drives a
Lavalink audio node through wavelink. The parts modelled are the ones that decide things:

- parsing and formatting of playback positions;
- the environment-driven configuration, including validation of the Lavalink node list;
- the in-memory per-guild settings store;
- the rebuild of a stuck player session;
- the DJ/admin and same-channel checks;
- the queue commands and their clamps;
- the search rate limiter and vote-skip bookkeeping;
- the controller texts, buttons and filter menu;
- the playlist cache with its TTL purge;
- the liked-track and playlist commands' ordering;
- the SQLite tables, as in-memory tables;
- the channel/command restriction check and the previous-track bookkeeping;
- the restriction commands.

The model follows the program's structure. It has one module per source file, plus small
shared modules:

- `Wrappers`: Option and Result.
- `Strings`: Python's `strip`, `lower`, `split`, `int()` and `str(int)` on ASCII.
- `Seqs`: filter, reverse, stable sort by key.
- `Wavelink`: an abstract track and a `Player` class standing for `wavelink.Player`.

How each part is written depends on the source:

- State the source changes in place is a Dafny `class` whose methods say exactly what changes.
  This covers the settings store, the rate limiter, the vote-skip table, the playlist cache,
  the storage tables, the bot's restriction maps and track memory, and the player.
- Each such method is tied to a pure specification function, and the lemmas are proved about
  those functions.
- Pure helpers are functions.
- Loops in the source are methods with loop invariants. These are the node-list validation,
  `leavecleanup`, the command-name resolution, and `sortliked`, an in-place insertion sort on
  an `array`.

The clock, `json.loads`, `urllib.parse.urlparse` and the outcome of each network call to Discord
or Lavalink are parameters of the operations that use them.

## Model

| member | source | states |
|---|---|---|
| TimeFormat.ParseTimeToMs | bot/utils/time.py:9-46 | every accepted position is a non-negative whole number of seconds in milliseconds; blank or all-whitespace input is rejected as empty |
| TimeFormat.ParseClock | bot/utils/time.py:14-34 | the colon form is accepted only with 2 or 3 fields; any other field count is a format error; results are non-negative multiples of 1000 |
| TimeFormat.ClockToMs | bot/utils/time.py:29-34 | a clock succeeds exactly when h ≥ 0, m ≥ 0 and 0 ≤ s < 60 (minutes may exceed 59), and then equals (h·3600 + m·60 + s)·1000 |
| TimeFormat.ParseUnits | bot/utils/time.py:39-46 | the XhYmZs form yields a non-negative multiple of 1000 |
| TimeFormat.MatchHms | bot/utils/time.py:6 | a regex match has digit-only groups that spell out the input exactly |
| TimeFormat.MatchHmsComplete | bot/utils/time.py:6 | every text of the form (Nh)?(Nm)?(Ns)? is matched, with exactly its groups |
| TimeFormat.ParseSeconds | bot/utils/time.py:36-37 | any input that is all digits after stripping surrounding whitespace (leading zeros allowed) parses to its decimal value times 1000 |
| TimeFormat.ParseSecondsText | bot/utils/time.py:36-37 | the decimal text of n seconds parses to n·1000 |
| TimeFormat.ParseHms | bot/utils/time.py:39-46 | an XhYmZs text parses to (h·3600 + m·60 + s)·1000, missing parts counting as 0 |
| TimeFormat.LowerOfHmsText | bot/utils/time.py:39 | lower-casing leaves a unit-form text unchanged, so the match sees what was typed |
| TimeFormat.HmsTextTakesUnitForm | bot/utils/time.py:14-39 | a non-empty unit-form text has no colon and is not all digits, so it reaches the regex branch |
| TimeFormat.HmsTextEndsWithUnit | bot/utils/time.py:6 | a non-empty unit-form text ends with one of the letters h, m, s |
| TimeFormat.TakesClockForm | bot/utils/time.py:10-14 | a stripped text with a colon takes the clock branch |
| TimeFormat.SplitThreeFields | bot/utils/time.py:15 | "a:b:c" with digit fields splits into exactly [a, b, c] |
| TimeFormat.ParseTwoFields | bot/utils/time.py:16-34 | "mm:ss" parses as the clock with h = 0 |
| TimeFormat.ParseThreeFields | bot/utils/time.py:21-34 | "hh:mm:ss" parses as the clock with those three fields |
| TimeFormat.ParseShortClock | bot/utils/time.py:16-34 | "m:ss" with s < 60 parses to (m·60 + s)·1000 |
| TimeFormat.ParseLongClock | bot/utils/time.py:21-34 | "h:mm:ss" with m, s < 60 parses to (h·3600 + m·60 + s)·1000 |
| TimeFormat.ShortClockValue | bot/utils/time.py:29-34 | the clock with h = 0 and s < 60 succeeds with (m·60 + s)·1000 |
| TimeFormat.ClockValue | bot/utils/time.py:29-34 | the clock with s < 60 succeeds with (h·3600 + m·60 + s)·1000 |
| TimeFormat.Pad2 | bot/utils/time.py:55-56 | `:02d` yields digits whose value is the number, exactly two of them below 100 (a leading "0" below 10), and the plain decimal text from 10 on |
| TimeFormat.WholeSeconds | bot/utils/time.py:50 | the whole seconds of a non-negative ms (ms lies within that second), and 0 for a negative ms |
| TimeFormat.MinutesOfHour | bot/utils/time.py:51-52 | the two `divmod` steps give the minute of the hour and the second of the minute |
| TimeFormat.FormatSecondsFields | bot/utils/time.py:51-56 | the printed fields are hours:mm:ss from one hour on and m:ss below it, mm and ss two digits each |
| TimeFormat.HoursMinutesSeconds | bot/utils/time.py:50-52 | the two divmods split the seconds into h, m < 60, s < 60 that add back up |
| TimeFormat.FormatSecondsThenParse | bot/utils/time.py:9-56 | parsing the formatted text of a whole number of seconds returns those seconds in milliseconds |
| TimeFormat.FormatThenParse | bot/utils/time.py:9-56 | round trip: parse(format_ms(ms)) is max(0, ms // 1000)·1000 |
| Config.GetBool | bot/config.py:27-31 | unset gives the default; otherwise true iff the trimmed, lower-cased value is one of 1/true/yes/y/on |
| Config.GetBoolNormalises | bot/config.py:31 | only the trimmed, lower-cased spelling of the value matters |
| Config.NormalisedIsFixed | bot/config.py:31 | trimming and lower-casing twice is doing it once |
| Config.GetInt | bot/config.py:38-42 | unset or blank gives the default; otherwise it succeeds exactly when `int()` parses the value, with that value; the only failure is NotAnInteger |
| Config.GetIntOfIntToString | bot/config.py:38-42 | a variable holding the decimal text of v reads back as v |
| Config.GetOptionalInt | bot/config.py:49-53 | unset or blank gives None; otherwise it succeeds exactly when `int()` parses the value, with Some of that value; the only failure is NotAnInteger |
| Config.Required | bot/config.py:134-136 | a required variable is its stripped value, or empty when unset |
| Config.GetText | bot/config.py:244-249 | a text setting is never empty: the stripped value when non-blank, the default when blank, the stripped default when unset |
| Config.GetOptionalText | bot/config.py:254-258 | an optional link is the stripped value when set and non-blank, otherwise None; a link is never empty and has no surrounding space |
| Config.Uri | bot/config.py:69-71 | the URI is scheme://host:port, and starts with "https://" exactly when the node is secure |
| Config.NodeIdentifier | bot/config.py:158-160 | an identifier is never empty: the stripped truthy `identifier`, else the stripped truthy `id`, else "node{i}"; a chosen value that strips to nothing also gives "node{i}" |
| Config.DefaultIdentifierStripped | bot/config.py:158-160 | "node{i}" survives the strip unchanged |
| Config.EndpointFromUrl | bot/config.py:176-185 | succeeds iff the scheme is http or https and the port parses; secure iff https; the host is the parsed hostname (or empty); a non-zero port is kept and a missing one defaults to 443 or 80; an unparsable port with a good scheme is BadUriPort |
| Config.UrlDefaultPorts | bot/config.py:183-185 | "https://host" gives port 443 secure; "HTTP://host" gives port 80 insecure |
| Config.EndpointFromFields | bot/config.py:186-191 | without a URI, the host is kept and secure is `bool(secure)`; failure (BadNodePort) iff the port is present but not an integer; otherwise the port is `int(port)`, or 0 when absent |
| Config.NodeEndpoint | bot/config.py:172-191 | a truthy `uri` is parsed first, else a truthy `url`, else the host/port/secure fields are used |
| Config.NodeFromObject | bot/config.py:166-206 | a blank password is an error; otherwise the endpoint's error is passed through, an empty host is MissingNodeHost, a port outside 1..65535 is NodePortOutOfRange, and else the node succeeds; an accepted node carries the identifier, the stripped password and exactly the endpoint's host, port and secure flag |
| Config.ItemCandidate | bot/config.py:155-206 | a list item is a candidate node iff it is a JSON object, with the identifier rule and an accepted node |
| Config.Candidates | bot/config.py:154 | one candidate per JSON item |
| Config.CandidateAt | bot/config.py:154 | the k-th candidate is built from item k with the 1-based index k + 1 |
| Config.LoadNodes | bot/config.py:153-206 | the validation loop: success keeps every item in input order, with distinct identifiers and only accepted nodes |
| Config.JsonNodesAccepted | bot/config.py:153-206 | a validated list has one node per item, all accepted, with distinct identifiers |
| Config.JsonNodesBuilt | bot/config.py:154-206 | node k of a validated list is the node built from item k |
| Config.RepeatedIdentifierRejected | bot/config.py:162-163 | two items with the same identifier make the whole list fail |
| Config.NonObjectRejected | bot/config.py:155-156 | a non-object item makes the whole list fail |
| Config.CheckNodesAt | bot/config.py:153-206 | every candidate of a validated list is accepted and is the node at its position |
| Config.CheckNodesCollects | bot/config.py:198-206 | the loop appends the nodes of the remaining candidates after those already collected |
| Config.CheckNodesDistinct | bot/config.py:153-164 | the `seen` set keeps the collected identifiers distinct |
| Config.NodeListAccepted | bot/config.py:153-206 | the loop's result has one accepted node per candidate, with distinct identifiers |
| Config.CandidateNode | bot/config.py:155-206 | a successful candidate came from an object item with that identifier |
| Config.CandidatesWellBuilt | bot/config.py:155-206 | every candidate's node carries the candidate's identifier and is accepted |
| Config.FallbackNode | bot/config.py:208-226 | without node JSON, the single node has a non-empty password, host and identifier |
| Config.FallbackDefaults | bot/config.py:208-226 | with nothing else set, the fallback node is main at 127.0.0.1:2333, insecure, with the given password |
| Config.SettingsDefaults | bot/config.py:228-258 | with nothing set, every setting takes its documented default |
| Config.LoadLavalinkNodes | bot/config.py:140-226 | invalid JSON and a non-array or empty array are errors; a non-empty array gives the node-by-node check of its items; success is a non-empty node list with distinct identifiers; without JSON, the single fallback node |
| Config.LoadConfig | bot/config.py:130-276 | a missing token is an error; node errors pass through; an out-of-range volume and a negative idle timeout are their own errors; it succeeds exactly when every step does, and then every field is what its getter reads, volume in 0..100 and idle timeout ≥ 0; with nothing optional set, it is the documented default configuration |
| SettingsStore.Defaults | bot/storage/memory.py:16-49 | a created entry has the store's volume and announce flag, 24/7 off, preset "off", buttons on, no channel and no DJ role |
| SettingsStore.LookupStores | bot/storage/memory.py:41-51 | `get` on a known guild returns the entry and changes nothing; on an unknown guild it returns and stores the created entry |
| SettingsStore.LookupTwice | bot/storage/memory.py:41-51 | a second `get` returns the same entry and changes nothing |
| SettingsStore.SetThenLookup | bot/storage/memory.py:41-58 | `get` after `set` returns what was set; other guilds' entries are untouched |
| SettingsStore.GuildSettingsStore.constructor | bot/storage/memory.py:32-35 | a new store is empty and keeps its defaults |
| SettingsStore.GuildSettingsStore.Get | bot/storage/memory.py:41-51 | returns, and stores, what the lazy lookup gives |
| SettingsStore.GuildSettingsStore.Set | bot/storage/memory.py:57-58 | overwrites that guild's entry only |
| SettingsStore.GuildSettingsStore.All | bot/storage/memory.py:64-65 | returns the map's contents, a value the store cannot see changes to |
| Helpers.HasRole | bot/utils/helpers.py:85 | true iff the member holds the role |
| Helpers.DjOrAdmin | bot/utils/helpers.py:65-85 | admins pass; otherwise a member in a guild with settings passes iff no DJ role is set (id 0 counts as none) or the member holds it |
| Helpers.IsDjOrAdmin | bot/utils/helpers.py:65-85 | gives DjOrAdmin of the settings it looked up; a missing member or a missing or zero guild id is refused before any lookup; the lookup (which may create the entry) happens only when it is needed |
| Helpers.EnsureSameChannel | bot/utils/helpers.py:294-302 | true iff the user is in a voice channel and it is the player's channel |
| Helpers.TargetChannel | bot/utils/helpers.py:187-193 | the channel is the explicit one, else the old player's, else the user's voice channel |
| Helpers.RestoreVolume | bot/utils/helpers.py:256-260 | the saved volume, else the settings default, else the player's own volume |
| Helpers.RestoredKeepsTracks | bot/utils/helpers.py:236-284 | the rebuilt session keeps the mode and autoplay; the current track and queue come back in order when there was a current track or start_if_idle; a resumed track keeps max(0, position), the paused flag and the volume |
| Helpers.RestoredFromNothing | bot/utils/helpers.py:236-260 | with no old player, the new session is empty, autoplay partial, loop off, and the volume is the settings default when setting it succeeded, else 100 |
| Helpers.Prepare | bot/utils/helpers.py:236-254 | a freshly connected player gets the autoplay, mode, volume and queue of the snapshot |
| Helpers.Resume | bot/utils/helpers.py:256-284 | resumes the saved track, or else plays the first queued track when start_if_idle and nothing plays |
| Helpers.Reconnect | bot/utils/helpers.py:220-286 | a new player on the channel, with the idle timeout, whose session is the restored snapshot |
| Helpers.RebuildPlayerSession | bot/utils/helpers.py:169-286 | None without a guild, without a channel or when the connect fails; nothing changes before a channel is known; the old player is disconnected when that succeeds and its queue and track are left as they were; the settings store records the guild once the new player connected; otherwise a fresh player on the target channel whose session is the snapshot taken before the disconnect, restored |
| Music.Recent | bot/cogs/music.py:67-68 | keeps exactly the timestamps newer than the window start |
| Music.RecentKeepsAll | bot/cogs/music.py:67-68 | timestamps all inside the window are all kept, in order |
| Music.RateLimitDecision | bot/cogs/music.py:58-78 | allowed iff fewer than 5 stay in the window; allowed appends now and returns 5 − count − 1; refused returns 0 and records nothing; never more than 5 inside the window |
| Music.RemainingIsExact | bot/cogs/music.py:70-78 | the next search is allowed exactly when this one was and reported remaining > 0 |
| Music.SearchRateLimiter.constructor | bot/cogs/music.py:55 | the limiter starts with no recorded searches |
| Music.SearchRateLimiter.Check | bot/cogs/music.py:58-78 | the user's list becomes the rate-limit result; the at-most-5 bound is kept |
| Music.VotesNeeded | bot/cogs/music.py:874 | max(1, ⌈humans / 2⌉): at least 1, at least half, and the least such |
| Music.CastVoteCounts | bot/cogs/music.py:876-889 | a new key restarts the count; a repeated voter is not counted twice; pending counts stay under the threshold; reaching it removes the entry |
| Music.RunVotesFrom | bot/cogs/music.py:876-889 | distinct voters each add one vote until the last one passes |
| Music.DistinctVotersPass | bot/cogs/music.py:874-889 | `needed` distinct voters pass on the last vote, with counts 1, 2, … before it |
| Music.VoteSkipTracker.constructor | bot/cogs/music.py:52 | no vote is open in any guild |
| Music.VoteSkipTracker.Vote | bot/cogs/music.py:876-889 | the guild's ballot becomes the cast vote's; a passed ballot is removed |
| Music.RemoveAt | bot/cogs/music.py:1146 | deletes exactly the item at i, keeping the order of the rest |
| Music.InsertAt | bot/cogs/music.py:1181 | inserts the track at i, shifting the rest |
| Music.MoveItemPermutes | bot/cogs/music.py:1179-1181 | a move keeps the length and the multiset; the moved track lands at dst; the other tracks keep their order |
| Music.BumpToFront | bot/cogs/music.py:1905-1907 | a bump puts the track first and keeps the order of the rest |
| Music.QueueIndex | bot/cogs/music.py:1136-1143 | an empty queue is its own error; a 1-based index is valid iff it is in 1..len |
| Music.Remove | bot/cogs/music.py:1136-1146 | invalid input changes nothing; otherwise it returns the track at index − 1 and deletes exactly it |
| Music.Move | bot/cogs/music.py:1168-1181 | an empty queue or an invalid index changes nothing; otherwise it moves src to dst |
| Music.Bump | bot/cogs/music.py:1896-1907 | invalid input changes nothing; otherwise it moves the track to the front |
| Music.SkipTo | bot/cogs/music.py:1829-1847 | invalid input changes nothing; otherwise the queue is exactly the items after the target, pause, autoplay, filters and idle timeout are unchanged, the target plays when the play call succeeds, and current track and position are unchanged when it fails |
| Music.KeptAndDropped | bot/cogs/music.py:2046-2058 | kept and removed tracks together are the old queue |
| Music.KeptExactly | bot/cogs/music.py:2049-2058 | kept are the tracks with no requester or a present requester; the others are dropped |
| Music.KeptAllPresent | bot/cogs/music.py:2049-2056 | when every requester is present, nothing is removed |
| Music.KeptAppend | bot/cogs/music.py:2048-2058 | the loop's step: each track is appended to keep iff it stays |
| Music.CleanupTracks | bot/cogs/music.py:2046-2058 | the loop keeps exactly the staying tracks in order, and counts the removed ones |
| Music.LeaveCleanup | bot/cogs/music.py:2043-2062 | the queue becomes the kept tracks; removed = old length − new length |
| Music.ClampVolume | bot/cogs/music.py:989 | the volume is clamped into 0..100 |
| Music.ClampSeek | bot/cogs/music.py:972 | the seek target is clamped into 0..length: kept inside it, the end past it, 0 for a negative target or length |
| Music.SeekTarget | bot/cogs/music.py:966-972 | fails exactly when the time does not parse, with the parse error; otherwise the parsed position clamped into 0..length |
| Music.SeekToShownPosition | bot/cogs/music.py:966-972 | seeking to a position as `format_ms` shows it lands on the start of that second, at most one second before it |
| Music.ForwardTarget | bot/cogs/music.py:1734-1749 | min(length, pos + max(0, s)·1000): the full step when it stays within the track, else the end; never behind the position |
| Music.RewindTarget | bot/cogs/music.py:1766-1781 | max(0, pos − max(0, s)·1000): the full step back when it stays at or after 0, else 0; never ahead of the position |
| Music.ForwardRewindInverse | bot/cogs/music.py:1734-1781 | forward then rewind by the same seconds returns to the position, and the reverse, when neither move hits an end |
| Music.ParseLoopMode | bot/cogs/music.py:1235-1243 | off/track/queue (trimmed, lower-cased) map to the three modes; anything else is refused |
| Music.ParseLoopModeName | bot/cogs/music.py:1236-1240 | each mode's name parses back to it |
| Controller.QueueModeText | bot/music/controller.py:30-35 | Tắt / Bài hiện tại / Toàn bộ, one for each mode |
| Controller.AutoplayText | bot/music/controller.py:42-48 | "Bật" exactly when autoplay is enabled, otherwise "Tắt" |
| Controller.FiltersPresetText | bot/music/controller.py:55-58 | an empty or missing preset shows "Tắt", otherwise its name |
| Controller.FindPreset | bot/music/controller.py:797-800 | finds a preset iff its name is a key of the table |
| Controller.PresetNames | bot/music/controller.py:205-787 | the preset table's names are its categories' names in order |
| Controller.CategoryNames | bot/music/controller.py:205-787 | each category holds exactly its listed names |
| Controller.PresetOrderNames | bot/music/controller.py:205-787 | the table's keys in order |
| Controller.PresetKeysByCategory | bot/music/controller.py:1041 | the keys without "reset" are the categories' names |
| Controller.PresetKeysCount | bot/music/controller.py:1041 | there are 53 presets besides "reset" |
| Controller.OrderHoldsKeys | bot/music/controller.py:1041 | the menu's order is a permutation of the preset keys besides "reset" |
| Controller.OrderWithinKeys | bot/music/controller.py:931 | every name in the menu order is a preset and not "reset" |
| Controller.MenuOffersEveryPreset | bot/music/controller.py:931 | the menu's filtered list is the menu order, a permutation of the keys the page count uses |
| Controller.OrderIsKeys | bot/music/controller.py:931 | the menu order holds each preset key exactly once |
| Controller.Slice | bot/music/controller.py:933-935 | Python slicing: the in-range part of [start, end), empty when out of range |
| Controller.PageCount | bot/music/controller.py:1042 | max(1, ⌈n / size⌉): at least one page, and exactly enough pages for n items |
| Controller.PagesUpToPrefix | bot/music/controller.py:933-935 | the first pages together are a prefix of the list |
| Controller.PagesPartition | bot/music/controller.py:933-935 | the pages cover the list exactly; every page below the count is non-empty; pages beyond it are empty |
| Controller.Truncate | bot/music/controller.py:941 | `[:50]`: a prefix of at most n characters, the whole text when it is short |
| Controller.FilterOptions | bot/music/controller.py:897-948 | one option per name of the page slice of the available presets |
| Controller.OptionsDescribePresets | bot/music/controller.py:937-946 | every option is a known preset other than "reset", labelled capitalised, with a prefix of its description of at most 50 characters |
| Controller.TotalFilterPages | bot/music/controller.py:1038-1042 | at least one page |
| Controller.FilterPageTotal | bot/music/controller.py:1038-1042 | with 25 per page, the menu has 3 pages |
| Controller.FilterPagesAgree | bot/music/controller.py:1038-1042 | the page count and the menu agree: each counted page is non-empty, later pages are empty, and together they are the menu order |
| Controller.NextFilterPage | bot/music/controller.py:1496 | (page + 1) mod total: the next page, wrapping to 0 after the last |
| Controller.FilterPageCycle | bot/music/controller.py:1496 | n presses move n pages forward modulo the total, so `total` presses return to the start |
| Controller.PresetChoice | bot/music/controller.py:795-798 | the name is trimmed and lower-cased; it is accepted iff it is a preset, otherwise an unknown-preset error |
| Controller.PresetNamesPlain | bot/music/controller.py:205-787 | preset names are already trimmed and lower-case |
| Controller.PresetChoiceStable | bot/music/controller.py:795-798 | accepted iff the preset exists; an accepted name is accepted again as itself |
| Controller.OptionsApply | bot/music/controller.py:944 | every menu option's value applies as that preset |
| Controller.FiltersFor | bot/music/controller.py:800-878 | off and reset clear the filters; any other preset sets its own filters |
| Controller.StoredPreset | bot/music/controller.py:884 | "reset" is stored as "off"; every other name as itself |
| Controller.StoredPresetReapplies | bot/music/controller.py:884 | the stored name is a preset that applies again with the same filters |
| Controller.WithPreset | bot/music/controller.py:884 | only the preset field of the settings changes |
| Controller.ApplyFilterPreset | bot/music/controller.py:794-891 | an unknown name changes nothing; otherwise the filters are set, and the guild's settings (and the table when persisted) store the preset name |
| ControlView.SameChannel | bot/music/controller.py:164-177 | refuses iff the same-channel check fails, with "not in voice" exactly when the user has no voice channel |
| ControlView.Gate | bot/music/controller.py:1081-1502 | a press passes iff its checks hold; the guild, DJ, admin and player checks come first, in that order; a button that needs playback is refused with "nothing playing" unless the player is connected with a track |
| ControlView.NextLoopMode | bot/music/controller.py:1365-1371 | the loop button always changes the mode |
| ControlView.LoopCycle | bot/music/controller.py:1365-1371 | three presses return to the start, visiting all three modes |
| ControlView.NextAutoplay | bot/music/controller.py:1431-1435 | partial when enabled, otherwise enabled; never disabled |
| ControlView.AutoplayToggles | bot/music/controller.py:1431-1441 | each press flips the "Bật" label; two presses restore a non-disabled mode |
| ControlView.VolumeAfter | bot/music/controller.py:1241 | the ±5 step stays within 0..100 |
| ControlView.VolumeStepsUndo | bot/music/controller.py:1241-1270 | up then down (or down then up) away from the ends is the identity, and up is never below down |
| ControlView.SeekStepsUndo | bot/music/controller.py:1303-1336 | ±10 s steps undo each other away from the ends |
| ControlView.EffectGuards | bot/music/controller.py:1081-1502 | only a press from the player's own voice channel changes the player, and only pause/resume skips the DJ check; shuffle keeps the tracks; only skip/stop end the track and only leave disconnects; the volume stays in 0..100 |
| ControlView.Toggled247 | bot/music/controller.py:1459 | 24/7 flips and nothing else in the settings changes |
| ControlView.CheckPress | bot/music/controller.py:1081-1502 | the press is judged by Gate on the member's roles and the player; the settings entry is created only when the DJ check reads it |
| ControlView.PlayerAction | bot/music/controller.py:1081-1482 | the player becomes the press's Effect; a node call that raised answers "failed" |
| ControlView.ToggleStay247 | bot/music/controller.py:1458-1465 | the guild's 24/7 flips in memory and, when persisted, in the table |
| ControlView.PressButton | bot/music/controller.py:1081-1502 | outside a guild nothing changes; a refused press changes no player or table; a passed one applies the Effect, and only 24/7 writes settings |
| Library.ExpiredKeys | bot/cogs/library.py:55 | exactly the keys whose age is at least the TTL |
| Library.Fresh | bot/cogs/library.py:55-57 | the purge keeps exactly the unexpired entries, unchanged |
| Library.FreshLater | bot/cogs/library.py:55-57 | purging twice at the same time is purging once; a later purge subsumes an earlier one |
| Library.StoredThenFound | bot/cogs/library.py:55-68 | a stored entry is found, with its tracks, iff it is younger than the TTL |
| Library.PlaylistCache.constructor | bot/cogs/library.py:46 | the cache starts empty |
| Library.PlaylistCache.Get | bot/cogs/library.py:49-62 | purges every expired entry, not just the key; returns the tracks iff the key survives |
| Library.PlaylistCache.Set | bot/cogs/library.py:65-68 | stores (tracks, now), overwriting that key |
| Library.PlaylistCache.Clear | bot/cogs/library.py:71-74 | removes only that key; an absent key changes nothing |
| Library.ParseLikedOrder | bot/cogs/library.py:174-177 | oldest/newest, trimmed and lower-cased; anything else is refused |
| Library.PlayLikedOrder | bot/cogs/library.py:185-186 | playliked reorders the liked tracks without adding or losing any |
| Library.TracksOfReverse | bot/cogs/library.py:186 | reversing rows reverses their tracks |
| Library.PlayLikedOldestFirst | bot/cogs/library.py:179-186 | "oldest" plays the user's likes in ascending time order; "newest" plays them newest first |
| Library.ParseSortKey | bot/cogs/library.py:262-265 | title/author, trimmed and lower-cased; anything else is refused |
| Library.KeyLePreorder | bot/cogs/library.py:272-275 | comparing lower-cased titles or authors (missing as "") is a total preorder |
| Library.SortLiked | bot/cogs/library.py:272-275 | the array ends sorted by the key and is a permutation of the old one |
| Library.InsertionSort | bot/cogs/library.py:272-275 | an in-place sort under any total preorder: sorted and a permutation |
| Library.InsertLast | bot/cogs/library.py:272-275 | one insertion step extends the sorted prefix and keeps the multiset |
| Storage.Flag | bot/storage/sqlite_storage.py:395-401 | booleans are stored as 1 and 0 |
| Storage.ToRow | bot/storage/sqlite_storage.py:376-407 | the row holds every setting, booleans as 0/1 |
| Storage.FromRow | bot/storage/sqlite_storage.py:350-374 | the settings read back from a row; any non-zero is true; a null preset is "off" |
| Storage.SettingsRoundTrip | bot/storage/sqlite_storage.py:350-407 | upsert then load returns the same settings, with an empty preset reading back as "off" |
| Storage.EnforceLikedKeepsNewest | bot/storage/sqlite_storage.py:283-314 | a user keeps min(count, 200) likes; every deleted like is no newer than every kept one; other users are untouched |
| Storage.TracksOf | bot/storage/sqlite_storage.py:543-547 | one track per row, in order |
| Storage.ListLikedOrder | bot/storage/sqlite_storage.py:534-547 | list_liked is the user's likes, newest first |
| Storage.UniqueKeysNoRepeats | bot/storage/sqlite_storage.py:160-172 | the unique (guild, user, track) key means no liked row appears twice |
| Storage.FindPlaylist | bot/storage/sqlite_storage.py:586-595 | finds a playlist iff one has that guild, owner and name, and returns its id |
| Storage.LastPosition | bot/storage/sqlite_storage.py:627-633 | contiguous positions end at the count, so max + 1 is the next free one |
| Storage.InOrder | bot/storage/sqlite_storage.py:597-608 | the tracks by position, one per item |
| Storage.RemovePosition | bot/storage/sqlite_storage.py:666-677 | delete-and-shift keeps the positions contiguous with one fewer item |
| Storage.RemovePositionTracks | bot/storage/sqlite_storage.py:666-677 | delete-and-shift removes exactly that track and keeps the others' order |
| Storage.AppendPositionTracks | bot/storage/sqlite_storage.py:627-650 | appending at max + 1 adds the track last |
| Storage.UpToCount | bot/storage/sqlite_storage.py:316-345 | keeping positions 1..n of a contiguous playlist keeps n items |
| Storage.TrimPlaylist | bot/storage/sqlite_storage.py:316-345 | keeps positions 1..500 and removes the rest; a playlist within the cap is unchanged |
| Storage.ChannelGuilds | bot/storage/sqlite_storage.py:410-421 | the guilds that have a whitelist row |
| Storage.ChannelsByGuild | bot/storage/sqlite_storage.py:410-421 | grouping: a guild maps to exactly its whitelisted channels |
| Storage.RestrictedGuilds | bot/storage/sqlite_storage.py:447-459 | the guilds that have a command pin |
| Storage.RestrictionsByGuild | bot/storage/sqlite_storage.py:447-459 | grouping: a guild maps each pinned command to its channel |
| Storage.ListPlaylistsOrder | bot/storage/sqlite_storage.py:570-584 | list_playlists is the owner's playlists, newest first |
| Storage.Summaries | bot/storage/sqlite_storage.py:570-584 | each listed playlist with its item count |
| Storage.CleanupKeepsActiveGuilds | bot/storage/sqlite_storage.py:251-281 | after cleanup only active guilds' rows remain, and an active guild's likes and playlists are unchanged |
| Storage.SettingsIn | bot/storage/sqlite_storage.py:264-271 | exactly the settings of active guilds remain |
| Storage.ChannelsIn | bot/storage/sqlite_storage.py:264-271 | exactly the whitelist rows of active guilds remain |
| Storage.RestrictionsIn | bot/storage/sqlite_storage.py:264-271 | exactly the pins of active guilds remain |
| Storage.ItemsOf | bot/storage/sqlite_storage.py:273-278 | items of deleted playlists go with them |
| Storage.AppendKeepsDistinct | bot/storage/sqlite_storage.py:179-186 | a new playlist with a fresh id and an unused name keeps playlists distinct |
| Storage.CreateKeepsTables | bot/storage/sqlite_storage.py:550-558 | creating a playlist keeps the table invariant and makes the name find the new id |
| Storage.DeleteKeepsTables | bot/storage/sqlite_storage.py:561-568 | deleting a playlist keeps the table invariant and the name is no longer found |
| Storage.SetItemsKeepsTables | bot/storage/sqlite_storage.py:610-689 | replacing a playlist's items by contiguous positions within the cap keeps the table invariant |
| Storage.CleanupKeepsTables | bot/storage/sqlite_storage.py:273-278 | cleanup keeps the table invariant |
| Storage.OnlyNamedHasId | bot/storage/sqlite_storage.py:561-568 | deleting by name removes exactly that playlist's id |
| Storage.ExcessDeletedCount | bot/storage/sqlite_storage.py:283-314 | the enforcement deletes exactly the excess likes |
| Storage.FindAfterAppend | bot/storage/sqlite_storage.py:550-558 | a created playlist is found by its name |
| Storage.SqliteStorage.constructor | bot/storage/sqlite_storage.py:86-89 | all tables start empty |
| Storage.SqliteStorage.LoadGuildSettingsAll | bot/storage/sqlite_storage.py:350-374 | one settings record per stored row, read back from it |
| Storage.SqliteStorage.UpsertGuildSettings | bot/storage/sqlite_storage.py:376-407 | insert-or-replace of the guild's row |
| Storage.SqliteStorage.LoadAllowedChannelsAll | bot/storage/sqlite_storage.py:410-421 | the whitelist rows grouped by guild |
| Storage.SqliteStorage.AddAllowedChannel | bot/storage/sqlite_storage.py:423-429 | insert-or-ignore of the pair |
| Storage.SqliteStorage.RemoveAllowedChannel | bot/storage/sqlite_storage.py:431-437 | deletes the pair |
| Storage.SqliteStorage.ClearAllowedChannels | bot/storage/sqlite_storage.py:439-445 | deletes every whitelist row of the guild |
| Storage.SqliteStorage.LoadCommandRestrictionsAll | bot/storage/sqlite_storage.py:447-459 | the pins grouped by guild |
| Storage.SqliteStorage.SetCommandRestriction | bot/storage/sqlite_storage.py:461-471 | insert-or-replace of the pin |
| Storage.SqliteStorage.ClearCommandRestriction | bot/storage/sqlite_storage.py:473-481 | deletes the pin |
| Storage.SqliteStorage.LikeTrack | bot/storage/sqlite_storage.py:484-514 | true iff the like is new; a new like is appended and the user's cap enforced; otherwise nothing changes |
| Storage.SqliteStorage.EnforceLikedLimit | bot/storage/sqlite_storage.py:283-314 | deletes the user's oldest likes beyond 200 and returns how many |
| Storage.SqliteStorage.UnlikeTrack | bot/storage/sqlite_storage.py:516-523 | true iff a row was removed; afterwards the track is not liked |
| Storage.SqliteStorage.ListLiked | bot/storage/sqlite_storage.py:534-547 | the user's liked tracks, newest first |
| Storage.SqliteStorage.ClearLiked | bot/storage/sqlite_storage.py:525-532 | deletes all of the user's likes and counts them |
| Storage.SqliteStorage.PruneOldLiked | bot/storage/sqlite_storage.py:239-249 | deletes exactly the likes older than the age limit and counts them |
| Storage.SqliteStorage.CreatePlaylist | bot/storage/sqlite_storage.py:550-558 | a duplicate (guild, owner, name) fails and changes nothing; otherwise a new, empty playlist with a fresh id |
| Storage.SqliteStorage.DeletePlaylist | bot/storage/sqlite_storage.py:561-568 | true iff the playlist existed; it goes with its items |
| Storage.SqliteStorage.PlaylistTracks | bot/storage/sqlite_storage.py:597-608 | None for a missing playlist, else its tracks in position order |
| Storage.SqliteStorage.ListPlaylists | bot/storage/sqlite_storage.py:570-584 | the owner's playlists, newest first, with item counts |
| Storage.SqliteStorage.AddPlaylistTrack | bot/storage/sqlite_storage.py:610-653 | false and no change for an unknown playlist or one with 500 items; otherwise appends at max + 1 |
| Storage.SqliteStorage.RemovePlaylistTrack | bot/storage/sqlite_storage.py:655-679 | false and no change for a missing playlist or position; otherwise delete-and-shift |
| Storage.SqliteStorage.ClearPlaylist | bot/storage/sqlite_storage.py:681-689 | true iff the playlist exists; it is emptied |
| Storage.SqliteStorage.EnforcePlaylistLimit | bot/storage/sqlite_storage.py:316-345 | trims the playlist to positions 1..500 |
| Storage.SqliteStorage.CleanupOrphanedGuilds | bot/storage/sqlite_storage.py:251-281 | an empty active set deletes nothing; otherwise exactly the rows of inactive guilds go, and the counts are returned |
| Storage.SqliteStorage.DeleteGuildRows | bot/storage/sqlite_storage.py:264-271 | deletes the settings, whitelist, pins and likes of inactive guilds and counts each; playlists are untouched |
| Storage.SqliteStorage.DeletePlaylistsOutside | bot/storage/sqlite_storage.py:273-278 | deletes the playlists of inactive guilds with their items and counts them; other tables are untouched |
| Bot.InteractionCheck | bot/bot.py:233-258 | passes iff there is no guild, channel or command, or the command is unrestricted, or both the pin and the whitelist allow the channel; a pin elsewhere refuses with that channel; otherwise a non-empty whitelist without the channel refuses |
| Bot.LoadedOverridesMirror | bot/bot.py:110-111 | the loaded pins agree with the table |
| Bot.CheckFromTables | bot/bot.py:233-258 | the check on the in-memory maps is the check on what a restart would load |
| Bot.StartedKeepsDistinct | bot/bot.py:359-363 | previous never has the same identifier as current |
| Bot.StartedTwice | bot/bot.py:359-363 | after tracks a then b (different), current is b and previous is a; other guilds untouched |
| Bot.ReplayKeepsPrevious | bot/bot.py:360-362 | restarting the same track leaves previous unchanged |
| Bot.LoadSettings | bot/bot.py:105-108 | every stored guild's settings are put in the store as read from its row; guilds not stored keep their entries |
| Bot.PutLoaded | bot/bot.py:107-108 | after the loop the store is the old store overridden by every loaded entry |
| Bot.MusicBot.constructor | bot/bot.py:63-64 | all maps start empty |
| Bot.MusicBot.LoadRestrictions | bot/bot.py:110-111 | the maps become the grouped tables and mirror the storage |
| Bot.MusicBot.OnTrackStart | bot/bot.py:353-363 | track memory becomes Started with `original or track` |
| Bot.MusicBot.PreviousTrack | bot/bot.py:400-401 | the stored previous track, or None; under the class invariant it differs from the current track |
| Bot.OnInactivePlayer | bot/bot.py:467-479 | in a guild, the player leaves iff 24/7 is off and the disconnect succeeds |
| Bot.OnVoiceStateUpdate | bot/bot.py:490-516 | the player leaves only if it sits in the channel left, no humans remain, 24/7 is off and the disconnect succeeds |
| Restrict.FirstCaseMatch | bot/cogs/restrict.py:40-45 | the first name equal up to case, or None iff there is none |
| Restrict.FirstCaseMatchAt | bot/cogs/restrict.py:40-45 | a match with none before it is the one found |
| Restrict.Resolution | bot/cogs/restrict.py:32-46 | blank resolves to nothing; an exact name wins; otherwise a command equal up to case, None iff there is none |
| Restrict.ResolutionIgnoresCase | bot/cogs/restrict.py:40-45 | without an exact spelling, case does not matter |
| Restrict.ResolutionStable | bot/cogs/restrict.py:32-46 | a resolved name resolves to itself |
| Restrict.ResolveCommand | bot/cogs/restrict.py:32-46 | the loop returns the resolution |
| Restrict.ChannelsGrouped | bot/storage/sqlite_storage.py:410-421 | a map agreeing with the rows is their grouping |
| Restrict.WithChannelMirrors | bot/cogs/restrict.py:69-71 | adding the channel in memory and in the table keeps them equal |
| Restrict.WithoutChannelMirrors | bot/cogs/restrict.py:137-142 | discarding the channel (dropping an emptied guild) keeps memory equal to the table |
| Restrict.WithoutGuildMirrors | bot/cogs/restrict.py:111-112 | clearing the guild keeps memory equal to the table |
| Restrict.WithPinMirrors | bot/cogs/restrict.py:167-174 | pinning keeps memory mirroring the table |
| Restrict.WithoutPinMirrors | bot/cogs/restrict.py:190-198 | unpinning keeps memory mirroring the table |
| Restrict.WithChannelIdempotent | bot/cogs/restrict.py:69-71 | restricting a channel twice is restricting it once |
| Restrict.WithoutChannelUndoes | bot/cogs/restrict.py:137-142 | unrestricting undoes restricting a new channel |
| Restrict.PinnedElsewhereRefused | bot/cogs/restrict.py:167-174 | after pinning, the command is refused in every other channel |
| Restrict.WithoutPinOnlyThat | bot/cogs/restrict.py:190-198 | unpinning removes only that command of that guild |
| Restrict.ClearedWhitelistHolds | bot/cogs/restrict.py:111-112 | after clearing, the whitelist allows every channel of the guild |
| Restrict.Gate | bot/cogs/restrict.py:61-67 | a command runs iff in a guild and by an admin, with the matching refusal otherwise |
| Restrict.RestrictChannel | bot/cogs/restrict.py:60-73 | adds the channel in the table and in memory, keeping them mirrored |
| Restrict.ClearChannels | bot/cogs/restrict.py:102-114 | removes the guild's whitelist in the table and in memory |
| Restrict.UnrestrictChannel | bot/cogs/restrict.py:128-144 | removes the channel in the table and in memory |
| Restrict.RestrictCommand | bot/cogs/restrict.py:158-176 | an unresolved name changes nothing; otherwise the pin is set in the table and in memory |
| Restrict.UnrestrictCommand | bot/cogs/restrict.py:181-200 | an unresolved name changes nothing; otherwise only that pin goes |

## Left out

- Discord and wavelink I/O:
  - messages, embeds (`build_controller_embed`), views, selects and select rebuilds;
  - voice connect/disconnect and track search;
  - lyrics over HTTP and the statistics in `meta.py`.
  
  Each network call's success is a boolean parameter.
- `get_player` and `author_voice_channel` connect to voice or read the Discord member. The model takes the user's voice channel and the existing player as inputs.
- `bot/utils/locks.py` (asyncio locks): each modelled operation runs atomically.
- The audio gains and rates of each filter preset. They are floating point; only the preset names and whether a preset clears the filters are modelled.
- The SQL engine, schema migrations, `connect`/`close`, `vacuum` and `get_db_stats`. The JSON (de)serialisation of tracks is also left out, since tracks are abstract values.
- The wall clock: `now` is a parameter of every operation that reads it.
- Randomness of `queue.shuffle()`: the new order is a parameter, required to be a permutation of the queue.
- Node failover: the pool is connected once and `/switchaudionode` delegates to wavelink, so there is nothing of the bot's own to model.
- History and filters in the rebuild: it does not restore them.
- `bot/utils/logging.py`, `main.py` and the tests.
- Python's `int()` also accepts underscores between digits and non-ASCII digits; the model's `int()` strips surrounding whitespace and reads an optional sign and ASCII decimal digits only. `lower()` is ASCII only.
- JSON floating-point numbers are not modelled: a node's `port` given as 2333.0 (which `int()` truncates) or a float `identifier` (its `str()` and truthiness) has no counterpart in the model's JSON values.
- The JSON values `str()` of a list or object: `str()` of such a value (an `identifier` given as an object, say) is a placeholder text, not Python's rendering.
- The announcement and controller refresh in `on_wavelink_track_start`, and the "restrict list" display.
- The retry with a rebuilt session when a play times out in `skipto` and `voteskip`. The model has one play attempt whose success is a parameter.
- `playliked` enqueueing and starting playback after it orders the tracks.
- Storage.NewestFirst and Storage.NewestPlaylists: SQLite leaves the order of rows with equal `created_at` unspecified; the model picks one (the reverse of a stable sort), and the ordering lemmas about them hold for any tie order.
- Library.SortLiked: Python's sort is stable; the model proves sorted and a permutation, not stability.
- ControlView.PlayerAction: wavelink's skip and stop end the current track; the model clears `current` and does not model the node starting the next queued track.
- Bot.LoadSettings and Bot.MusicBot.LoadRestrictions: the exception path of `setup_hook` (a storage failure during loading) is not modelled.
- Bot.MusicBot.PreviousTrack: the "differs from current" guarantee holds under the class invariant. The in-place `Playable` objects are values, so aliasing is not captured.
- Settings are values (`GuildSettings` is a datatype). A caller's in-place field write followed by `upsert` is modelled as `get`, a changed copy, then `set`; aliasing of the shared object is not captured.
- The `Config.lavalink_*` accessors are plain field reads of node 0 and have no contract of their own.
- Storage.SqliteStorage.EnforcePlaylistLimit: its count of deleted rows is 0 because the table invariant already caps playlists at 500. A table that breaks the invariant (possible in SQL only by writes outside these methods) is not modelled.
