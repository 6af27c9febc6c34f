# A verified model of the pyDiscord bot's bookkeeping

The bot is a Discord bot built from feature cogs. This project models the logic
inside those cogs that decides what the bot remembers and what it prints. It
does not model the Discord, HTTP or media calls around that logic.

- **Music player** (`Music`, `MusicFormat`). Each guild has a `GuildPlayer`.
  It holds the pending queue, the current track, the volume as a whole
  percentage with its last non-zero value, and the voice client's state. It
  also holds the stop signal and the playback task. The playback loop is a
  method whose passes are driven by explicit inputs: the channel's members,
  whether the stream fails to open, the clock, whether the connection drops
  during the wait, and whether a `skip()` lands just before the pass. A
  stop signal such a skip leaves set lets the next track play on past its
  wait, and the pass after that raises in `voice.play`; the model follows
  that path to the end of the task. The `Music` cog keeps one
  player per guild and serves the remove, skip and stop commands. The queue
  view handles its removal menu and page index. The formatters `fmt_time`,
  `clamp`, `progress_bar`, `volume_bar` and the queue pagination are pure
  functions or a loop-based method.
- **Kaneo integration** (`KaneoHelpers`, `Kaneo`). These model:
  - base-URL normalisation and path joining;
  - the `GuildConfig` dict round trip;
  - event normalisation with its fallbacks and the 500-character cap;
  - message formatting;
  - the request chosen from a cached feed path;
  - the cog's per-guild configuration map, updated by setup, link, unlink,
    fetch and poll.

  Replies from the Kaneo server, the login result and the probe result are
  inputs.
- **Personal voice rooms** (`VoiceChannels`). The `VoiceCog` class holds the
  lobby, category and defaults maps, the tracked rooms, the pending cleanup
  tasks and the owner-to-room map. The persisted part of the state is written
  as a JSON snapshot and read back by the loader. The loader's exceptions
  become a `Result`. What Discord reports (channel kinds, categories,
  bitrates, the id of a created channel, whether a room is occupied) is an
  input.
- **Admin extension names** (`Admin`). These model `full_ext`, the cog filter
  and sort of `all_extensions`, the autocomplete filter, and the unloaded set
  of `list_ext`.
- **Service registry** (`Registry`): a class whose map is updated in place.
- **Settings** (`Config`): the token check and the parsing of the
  comma-separated guild ids.

`Strings`, `Json` and `Wrappers` are supporting modules:
- `Strings` has Python's `strip`, `split`, `join`, `int()` and `str()` on
  text.
- `Json` has decoded JSON values and Python truthiness.
- `Wrappers` has `Option` and `Result`.

## Model

| member | source | states |
|---|---|---|
| MusicFormat.FmtTime | src/modules/music/cog.py:41-47 | `?:??` exactly for a missing, zero or negative duration; otherwise the clock text of the whole seconds |
| MusicFormat.ClockRoundTrip | src/modules/music/cog.py:43-47 | the `h:mm:ss` / `m:ss` text of `n` seconds reads back as `n`, so hours, minutes under 60 and seconds under 60 add back up to `n` |
| MusicFormat.FmtTimeRoundTrip | src/modules/music/cog.py:41-47 | every positive duration is shown as its truncated whole seconds |
| MusicFormat.Clamp | src/modules/music/cog.py:56-57 | the result lies in `[lo, hi]` when `lo <= hi`; it equals `x` inside the range, `lo` below it (tested first) and `hi` above it |
| MusicFormat.ClampMinMax | src/modules/music/cog.py:56-57 | over a proper range, clamping is `min(max(x, lo), hi)` |
| MusicFormat.ProgressFill | src/modules/music/cog.py:50-52 | the filled cells are the floor of the clamped fraction times the width, and never more than the width |
| MusicFormat.ProgressBar | src/modules/music/cog.py:50-53 | the bar has `width` cells: filled ones first, then hollow ones |
| MusicFormat.ProgressMonotone | src/modules/music/cog.py:50-53 | a larger fraction never fills fewer cells |
| MusicFormat.RoundPercent | src/modules/music/cog.py:61 | Python's `round` of `num / 100`: nearest integer, with ties going to the even one |
| MusicFormat.VolumeBar | src/modules/music/cog.py:60-62 | full cells up to the rounded fill, then light cells up to the width; a negative fill (below 0%) gives more than `width` light cells, as Python's string repetition does |
| MusicFormat.VolumeBarInRange | src/modules/music/cog.py:60-62 | between 0% and 100% the bar is exactly `width` cells; it is all light at 0% and all full at 100% |
| MusicFormat.QueuePages | src/modules/music/cog.py:422-429 | the pages concatenate to the queue; every page holds at most `per_page` tracks, all but the last exactly that many; there is at least one page, and none is empty unless the queue is |
| MusicFormat.RemoveClampIsLastPage | src/modules/music/cog.py:596-597 | the page index the removal menu clamps to is the index of the last page |
| Music.CountOthers | src/modules/music/cog.py:96-100 | never more than the member count |
| Music.OthersPlusSelf | src/modules/music/cog.py:96-100 | the other members plus the bot's own appearances make up the whole channel |
| Music.NoOthers | src/modules/music/cog.py:102-103 | the channel is empty apart from the bot exactly when every member is the bot |
| Music.OthersCount | src/modules/music/cog.py:96-100 | zero without a voice client or a bot user; otherwise bounded by the member count |
| Music.SumDurationsAppend | src/modules/music/cog.py:120-121 | the queue's total duration adds up over concatenation |
| Music.SumDurations | src/modules/music/cog.py:120-121 | an empty queue totals 0; with no negative duration the total is never negative; one track totals its own duration |
| Music.Trunc | src/modules/music/cog.py:120-121 | Python's `int()` on a float truncates toward zero |
| Music.FisherYates | src/modules/music/cog.py:157-163 | the shuffled queue is a permutation of the original |
| Music.PlayedUpTo | src/modules/music/cog.py:210-230 | the first `n` passes play at most `n` tracks |
| Music.GuildPlayer.constructor | src/modules/music/cog.py:77-93 | a new player has an empty queue, no track, no voice client and no task, and plays at 100% with 100% remembered |
| Music.GuildPlayer.Teardown | src/modules/music/cog.py:105-117 | the new state is `TornDown(old state, raised)`: empty queue, stop signal set, playing audio stopped, and no current track, start time or transformer even when the disconnect raises; a connected client is disconnected unless that raises; volume, task and loop count are kept |
| Music.TornDown | src/modules/music/cog.py:105-117 | after a teardown the queue is empty, nothing plays and the current track, start time and transformer are gone; the volume, task, loop count and client channel are kept; the client stays connected exactly when it was and the disconnect raised |
| Music.GuildPlayer.PositionSeconds | src/modules/music/cog.py:123-127 | zero before playback starts; otherwise the time since the start, never negative |
| Music.GuildPlayer.OthersInChannel | src/modules/music/cog.py:95-99 | 0 without a voice client or a bot user; otherwise the members that are not the bot, which with the bot's own appearances make up the whole channel |
| Music.GuildPlayer.ChannelEmpty | src/modules/music/cog.py:101-102 | true exactly when there is no voice client or bot user, or every member of the channel is the bot |
| Music.GuildPlayer.TotalQueueSeconds | src/modules/music/cog.py:120-121 | 0 for an empty queue; when no duration is negative, the total duration truncated to whole seconds (`r <= total < r + 1`) |
| Music.GuildPlayer.EnsureConnected | src/modules/music/cog.py:129-143 | it raises exactly when the needed `move_to` or `connect` fails, and then the client is unchanged; otherwise a client is connected: the same client moved to the target channel, a client that finished connecting, or a new connection to the target; nothing else changes |
| Music.GuildPlayer.Add | src/modules/music/cog.py:146-150 | the track is appended at the tail; a loop is started, after clearing the stop signal, exactly when none is running; afterwards exactly one loop is alive |
| Music.GuildPlayer.Skip | src/modules/music/cog.py:152-155 | the new state is `Skipped(old state)`: playing audio is stopped and the stop signal set; every other field is unchanged |
| Music.Skipped | src/modules/music/cog.py:152-155 | after a skip the stop signal is set and nothing plays; a state that was not playing keeps its client; only the client and the stop signal can differ from the old state |
| Music.GuildPlayer.Shuffle | src/modules/music/cog.py:157-163 | the queue is a permutation of itself; nothing else changes |
| Music.GuildPlayer.ClearQueue | src/modules/music/cog.py:165-166 | the queue is empty and nothing else changes |
| Music.GuildPlayer.VolumePercent | src/modules/music/cog.py:169-170 | the volume is always between 0% and 200% |
| Music.GuildPlayer.SetVolumePercent | src/modules/music/cog.py:172-179 | returns `clamp(p, 0, 200)`, which becomes the volume and the live transformer's volume; the last non-zero volume changes only when that value is positive |
| Music.GuildPlayer.Mute | src/modules/music/cog.py:181-184 | the volume becomes 0 and a positive volume is remembered |
| Music.GuildPlayer.Unmute | src/modules/music/cog.py:186-188 | restores exactly the remembered volume, which is always positive, so the fallback is never taken |
| Music.GuildPlayer.Pause | src/modules/music/cog.py:191-195 | pauses and reports true exactly when audio was playing |
| Music.GuildPlayer.Resume | src/modules/music/cog.py:197-201 | resumes and reports true exactly when audio was paused |
| Music.Passed | src/modules/music/cog.py:205-257 | an empty channel ends the loop with nothing changed; otherwise exactly the head is popped and made current; a client not connected ends the loop there; a stream that cannot be opened drops the track; a client still playing makes `voice.play` raise, the transformer made and no start time set; otherwise the track plays from `now`, the stop signal is cleared and the transformer released, and the audio keeps playing exactly when the stop signal was already set as the wait began; only a pass that waits can drop the connection; volume, task and channel are unchanged |
| Music.Arrived | src/modules/music/cog.py:152-155 | a `skip()` landing between passes silences playing audio and sets the stop signal; audio that was not playing keeps its playback; with no skip nothing changes |
| Music.AudioAt | src/modules/music/cog.py:229-255 | after a pass that plays its track the stop signal is clear, and the audio is still playing exactly when the signal was set as that pass's wait began |
| Music.QuietPassesNeverRaise | src/modules/music/cog.py:229-255 | from a silent client with no stop signal, passes with no `skip()` landing between them never leave audio playing or the signal set, so no `voice.play` raises |
| Music.StaleStopRaises | src/modules/music/cog.py:229-257 | whatever the audio before, a `skip()` landing between passes leaves the stop signal set, so the next pass's wait ends at once with its track playing on, and the pass after that raises in `voice.play` |
| Music.GuildPlayer.Pass | src/modules/music/cog.py:205-257 | the returned outcome and the new state are exactly those `Passed` gives for the old state and the round |
| Music.GuildPlayer.RunPlayerLoop | src/modules/music/cog.py:204-265 | the loop pops a prefix of the queue; every pass began with someone else in the channel; it stops early only on an empty channel, a lost client, a connection dropped in the previous pass, or a `voice.play` that raised on a client still playing; the played tracks are the popped ones whose stream opened, in order, over the passes made while connected (the raising pass excluded); when `voice.play` raised, the task ends raising with that pass's track current, no start time and its transformer made, and no exit cleanup runs; otherwise, on exit, a connected client in a channel left empty is disconnected; the task then ends raising exactly when that disconnect raises, and in that case the last popped track whose stream opened stays current with its start time; otherwise the current track, start time and transformer are cleared |
| Music.GuildPlayer.PlayPasses | src/modules/music/cog.py:205-257 | with each round's `skip()` landing before its pass, the passes pop a prefix of the queue, each begun with someone else in the channel; they stop early only on an empty channel, a lost client, a connection dropped during the previous wait, or a pass whose `voice.play` raised; they report raising exactly when `RaisedAtAttach` holds, i.e. a stale stop signal let the previous track play on; the played tracks are the popped ones whose stream opened, in order, over the passes made while connected, and the last of them is current (the raising pass's track instead, with its transformer made); the client's channel is unchanged and it stays connected exactly when no completed pass dropped it |
| Music.ConnectedPasses | src/modules/music/cog.py:213-214 | of `n` passes, all but the last were made while connected, unless the second-to-last dropped the connection, in which case the last one found the client gone |
| Music.GuildPlayer.ExitLoop | src/modules/music/cog.py:259-265 | a connected client in a channel left empty is disconnected; it reports raising exactly when that disconnect raises, and then the current track, start time and transformer keep their values; otherwise they are cleared; the task is done either way |
| Music.PlayedOrder | src/modules/music/cog.py:210-230 | every popped track whose stream opened was played, and when none fails the played tracks are exactly the popped prefix |
| Music.MuteUnmute | src/modules/music/cog.py:375-380 | unmutes at 0%, otherwise mutes and remembers the volume |
| Music.MuteUnmuteTwice | src/modules/music/cog.py:181-188 | pressing the button twice gives back the starting volume |
| Music.PauseThenResume | src/modules/music/cog.py:191-201 | pausing playing audio and resuming it leaves it playing as before |
| Music.Without | src/modules/music/cog.py:763-765 | the queue without its `index`-th item keeps the others in order, and the removed item completes the multiset |
| Music.MusicCog.GetPlayer | src/modules/music/cog.py:275-278 | returns the guild's player with its state unchanged; a new one in the fresh state is created and stored only on first use |
| Music.MusicCog.OnVoiceStateUpdate | src/modules/music/cog.py:316-344 | tears down exactly when the player exists, is connected, the update touches its channel and nobody else remains, and then its state is `TornDown`; otherwise its state is unchanged; it forgets that player unless the disconnect raised; no other guild's player is touched |
| Music.MusicCog.Remove | src/modules/music/cog.py:757-766 | an index outside `1..len(queue)` fails and leaves the player's state unchanged; otherwise returns `queue[index-1]`, keeps the rest in order and changes no other field; only the guild's own player changes, and the map gains at most that player |
| Music.MusicCog.SkipCommand | src/modules/music/cog.py:770-776 | skips exactly when a track is current, and then the state is `Skipped` of the old one and nothing plays; otherwise the state is unchanged; only the guild's own player changes, and the map gains at most that player |
| Music.MusicCog.Stop | src/modules/music/cog.py:780-784 | the state is `Skipped` of the old one with an empty queue: the stop signal set and nothing playing, every other field kept; only the guild's own player changes, and the map gains at most that player |
| Music.QueueView.OnRemoveSelect | src/modules/music/cog.py:580-603 | a non-integer is ignored; an out-of-range index is refused with nothing changed; otherwise that track is removed, the player's other fields are unchanged and the page index is pulled back to the last page |
| KaneoHelpers.NormalizeBase | src/modules/kaneo/cog.py:24-30 | `""` exactly for blank input; never ends in `/`; `https://` is prepended exactly when the stripped input lacks `://` |
| KaneoHelpers.Segments | src/modules/kaneo/cog.py:32-36 | `base/prefix/rest` for a non-empty prefix and `base/rest` for an empty one; no empty segment follows the base |
| KaneoHelpers.JoinPath | src/modules/kaneo/cog.py:32-36 | the normalised base, `/`, the prefix without its surrounding slashes and `/` when that prefix is not empty, then the path without its leading slashes; no empty middle segment |
| KaneoHelpers.JoinIgnoresSlashes | src/modules/kaneo/cog.py:32-36 | extra slashes around the prefix or before the path change nothing |
| KaneoHelpers.ToDict | src/modules/kaneo/cog.py:50-60 | the dict has exactly the eight config keys |
| KaneoHelpers.TextField | src/modules/kaneo/cog.py:64-68 | a missing text field reads as `""`; a string reads as itself |
| KaneoHelpers.MappingField | src/modules/kaneo/cog.py:70-72 | a falsy value reads as an empty map; an object as its fields |
| KaneoHelpers.IntValues | src/modules/kaneo/cog.py:70 | succeeds exactly when every value converts with `int()`, keeping the keys |
| KaneoHelpers.StrValues | src/modules/kaneo/cog.py:71-72 | keeps the keys and gives every value as `str()` shows it |
| KaneoHelpers.IntValuesRoundTrip | src/modules/kaneo/cog.py:50-70 | reading back a route map written out gives the same map |
| KaneoHelpers.StrValuesRoundTrip | src/modules/kaneo/cog.py:50-72 | reading back a cursor or feed map written out gives the same map |
| KaneoHelpers.FromDict | src/modules/kaneo/cog.py:62-73 | a missing `poll_sec` becomes 30; the maps are never `None`; a `poll_sec` that `int()` refuses makes it fail |
| KaneoHelpers.ConfigRoundTrip | src/modules/kaneo/cog.py:50-73 | `from_dict(to_dict(c))` gives `c` back, with `None` maps replaced by empty ones |
| KaneoHelpers.CapDetails | src/modules/kaneo/cog.py:541 | text over 500 characters becomes its first 500 plus `…`; shorter text is kept |
| KaneoHelpers.CapDetailsIdempotent | src/modules/kaneo/cog.py:541 | capping twice is capping once, and the result has at most 501 characters |
| KaneoHelpers.NormalizeEvent | src/modules/kaneo/cog.py:525-542 | each field is the value at the first truthy key of its `or` chain, in the source's key order, or the chain's last operand; details are then capped; the event has exactly the seven keys, with a truthy title and type |
| KaneoHelpers.NormalizeList | src/modules/kaneo/cog.py:520-543 | one event per dict item, in order, each the normalisation of that item; non-dict items are skipped |
| KaneoHelpers.ObjectItems | src/modules/kaneo/cog.py:522-524 | keeps exactly the dict items |
| KaneoHelpers.ObjectItemsAppend | src/modules/kaneo/cog.py:522-524 | the filter keeps input order |
| KaneoHelpers.NormalizeEvents | src/modules/kaneo/cog.py:506-543 | a dict with `events` normalises that value: a list gives one event per dict item in order, a string or a dict gives `[]`, and any other value raises; a list gives one event per dict item in order; anything else gives `[]`; every event has the seven keys |
| KaneoHelpers.LooksLikeList | src/modules/kaneo/cog.py:413-415 | a list looks like a list exactly when it is empty or starts with a dict, a string, a number or a bool; a list starting with a null or a list does not, and nothing else does |
| KaneoHelpers.LooksLikeListNormalizes | src/modules/kaneo/cog.py:392-415 | a reply body the feed probe accepts always normalises without raising, and one starting with a dict gives at least one event |
| KaneoHelpers.FormatMessage | src/modules/kaneo/cog.py:546-559 | raises exactly when a truthy url or details value is not text; otherwise the message starts with the `**[project] title**  •  *type*` header |
| KaneoHelpers.FormatMessageSpec | src/modules/kaneo/cog.py:546-559 | the message is, joined by newlines: the header, `by **…**` for a truthy by, a truthy url, and truthy details capped at 500 characters; splitting it at newlines gives those lines back when none holds a newline; it ends with the capped details when there are some; it is the header alone with no by, url or details |
| Json.FirstTruthy | src/modules/kaneo/cog.py:525-532 | the index of the first key whose value is truthy: every earlier key's value is falsy; the number of keys when none is truthy |
| Json.OrGetFirstTruthy | src/modules/kaneo/cog.py:525-532 | a chain of `or` over `.get` is the value at the first truthy key, and its last operand when no key is truthy |
| Kaneo.Quote | src/modules/kaneo/cog.py:430 | every character of the quoted slug is `%` or unreserved, and the slug is never shorter than the project |
| Kaneo.QuoteAppend | src/modules/kaneo/cog.py:430 | quoting works character by character |
| Kaneo.QuoteUnreserved | src/modules/kaneo/cog.py:430 | a slug of unreserved characters is used as it is |
| Kaneo.PercentDecodeQuote | src/modules/kaneo/cog.py:430 | percent-decoding a quoted slug gives the UTF-8 bytes of the project, so every other character became `%XX` for each of its UTF-8 bytes |
| Kaneo.Utf8RoundTrip | src/modules/kaneo/cog.py:430 | UTF-8 decoding the bytes `quote` encodes gives the text back |
| Kaneo.QuoteRoundTrip | src/modules/kaneo/cog.py:430 | unquoting a quoted slug gives the project back |
| Kaneo.QuoteInjective | src/modules/kaneo/cog.py:430 | two projects never share a slug |
| Kaneo.ChooseRequest | src/modules/kaneo/cog.py:430-453 | a `POST` feed gives a POST request and fails when it has no space; a feed with `?` or `POST` sends `project`; `since` is sent exactly when given |
| Kaneo.PostDispatch | src/modules/kaneo/cog.py:446-453 | `POST <path>` posts to the text after the first space |
| Kaneo.QueryDispatch | src/modules/kaneo/cog.py:441-445 | `<path>?<query>` is a GET to the part before `?` with `project` as its first parameter |
| Kaneo.PlainDispatch | src/modules/kaneo/cog.py:437-440 | a plain feed without placeholders is a GET of that path |
| Kaneo.CachedFeed | src/modules/kaneo/cog.py:419-420 | the project's cached feed path when it has one; empty when none is cached |
| Kaneo.FormattedBatchSnoc | src/modules/kaneo/cog.py:490-494 | one more event adds its message at the end when it formats |
| Kaneo.LastCursor | src/modules/kaneo/cog.py:495-498 | a stored cursor is never empty |
| Kaneo.CursorSpec | src/modules/kaneo/cog.py:495 | an event has a cursor exactly when its `id`, `timestamp`, `ts` or `updated_at` is truthy with non-empty text; `id` comes first |
| Kaneo.LastCursorSpec | src/modules/kaneo/cog.py:490-498 | the batch's cursor is that of its last event that has one, and it is absent exactly when no event has one |
| Kaneo.SinceAfterDone | src/modules/kaneo/cog.py:490-498 | storing a batch's cursor finishes that project and touches no other |
| Kaneo.SendBatch | src/modules/kaneo/cog.py:490-498 | the posted messages are the batch's formattable events in order; `since` ends at the last cursor, or stays as it was |
| Kaneo.UpdateTwiceAt | src/modules/kaneo/cog.py:500 | a second write of a guild's config replaces the first |
| Kaneo.UpdateTwice | src/modules/kaneo/cog.py:496-498 | a later cursor replaces an earlier one |
| Kaneo.PollInterval | src/modules/kaneo/cog.py:244 | at least 10; 30 when unset or 0; otherwise the given value raised to 10 |
| Kaneo.KaneoCog.constructor | src/modules/kaneo/cog.py:79-81 | no guild is configured |
| Kaneo.KaneoCog.Setup | src/modules/kaneo/cog.py:230-262 | when the connectivity check passes, the connection fields are replaced (normalised base URL, stripped prefix and email, poll interval at least 10) and routes, cursors and cached feeds are kept; otherwise nothing changes |
| Kaneo.KaneoCog.Link | src/modules/kaneo/cog.py:274-302 | refused without a base URL, on a failed login or for an unknown project, with nothing changed; otherwise `routes[project]` is set and the cached feed dropped |
| Kaneo.KaneoCog.Unlink | src/modules/kaneo/cog.py:308-320 | removes the route and the cached feed exactly when the project was linked; otherwise nothing changes |
| Kaneo.KaneoCog.FetchEvents | src/modules/kaneo/cog.py:417-463 | a missing feed is probed and cached, or gives `[]`; the request sent is the one the feed selects; a failed reply drops the cached feed and gives `[]`; otherwise the normalised events; the project's feed entry ends as `FeedEntryAfter` says and the events are `FetchedEvents`; every other feed entry and every other field is unchanged |
| Kaneo.KaneoCog.PostBatch | src/modules/kaneo/cog.py:490-498 | posts the formattable events and stores the batch's last cursor; only `since` changes |
| Kaneo.KaneoCog.PollProject | src/modules/kaneo/cog.py:471-498 | the batch is what the fetch returns (`FetchedEvents` from the stored feed entry and cursor) when the route's channel is a text channel, and nothing otherwise; its messages are posted; the project's feed entry ends as the fetch leaves it and its cursor at the batch's last cursor; every other project's feed entry and cursor are untouched |
| Kaneo.KaneoCog.PollGuild | src/modules/kaneo/cog.py:465-501 | a failed login changes nothing; otherwise every routed project is polled once, in order: its batch is what its own fetch returns from its starting feed entry and cursor when its channel is a text channel, its messages are posted, its cursor ends at the batch's last cursor and its feed entry as its fetch leaves it; projects without a route keep their cursor and feed entry |
| Kaneo.PollStep | src/modules/kaneo/cog.py:471-498 | polling the next project extends the poll by that project's batch, messages, cursor and feed entry, and keeps every other project as it was |
| Kaneo.CursorsStep | src/modules/kaneo/cog.py:496-498 | polling one more project gives it its batch's cursor and keeps the cursors of the projects already polled and of those not yet reached |
| Kaneo.FeedsStep | src/modules/kaneo/cog.py:419-460 | polling one more project leaves its feed entry as its fetch did and keeps the entries of every other project |
| Kaneo.LinkThenUnlink | src/modules/kaneo/cog.py:295-320 | unlinking right after linking removes the route and leaves no cached feed for the project |
| VoiceChannels.UserLimit | src/modules/voice_channels/cog.py:121-122 | 0 when the guild or key is absent |
| VoiceChannels.BitrateBps | src/modules/voice_channels/cog.py:124-126 | a value exactly when the stored value is an `int`; `None` when absent |
| VoiceChannels.DeleteDelay | src/modules/voice_channels/cog.py:128-129 | 5 when the guild or key is absent |
| VoiceChannels.Snapshot | src/modules/voice_channels/cog.py:59-71 | an object whose only key is `guilds`; its keys are exactly the decimal texts of the guilds in the three maps, and each key holds its guild's lobby, category and defaults |
| VoiceChannels.EntryOfKey | src/modules/voice_channels/cog.py:62-70 | a snapshot key is the decimal text of a guild that has an entry, and holds that guild's entry |
| VoiceChannels.LoadEntry | src/modules/voice_channels/cog.py:87-103 | a key that `int()` refuses is skipped; the entry fails exactly when it is not a mapping or a truthy lobby or category, the user limit or the delete delay (each with its fallback) is not an integer; otherwise a truthy lobby and category are stored as integers for the guild and a falsy one leaves that map as it was, the guild's defaults hold `int()` of the user limit and delete delay with their fallbacks and the raw bitrate, and other guilds' lobbies, categories and defaults are untouched |
| VoiceChannels.LoadGuilds | src/modules/voice_channels/cog.py:86-103 | no keys leave the state as it was; on success nothing already loaded is forgotten and every key `int()` accepts names a guild with defaults |
| VoiceChannels.LoadData | src/modules/voice_channels/cog.py:84-103 | data that is not a dict fails, and so does a `guilds` value that is not one; otherwise as the guild loop |
| VoiceChannels.Load | src/modules/voice_channels/cog.py:73-103 | a missing or blank file changes nothing; on success nothing already loaded is forgotten, and every guild key `int()` accepts gets defaults |
| VoiceChannels.LoadEntryReadsBack | src/modules/voice_channels/cog.py:87-103 | the loader accepts a snapshot entry and stores what it says |
| VoiceChannels.EntryFields | src/modules/voice_channels/cog.py:62-70 | a snapshot entry is an object whose fields are the guild's ids and defaults |
| VoiceChannels.ReadBackRestores | src/modules/voice_channels/cog.py:86-103 | reading back one more guild extends the restored set by that guild |
| VoiceChannels.LoadGuildsRestores | src/modules/voice_channels/cog.py:86-103 | the guild loop over snapshot keys succeeds and restores every guild it walks |
| VoiceChannels.AllGuildsRead | src/modules/voice_channels/cog.py:86-91 | walking every key reads every guild |
| VoiceChannels.RestoredAll | src/modules/voice_channels/cog.py:93-103 | once every guild is restored, the lobby and category maps are equal and every lookup agrees |
| VoiceChannels.SnapshotLoads | src/modules/voice_channels/cog.py:84-86 | the loader walks the snapshot's guild object |
| VoiceChannels.SnapshotRestores | src/modules/voice_channels/cog.py:59-103 | loading a snapshot into a fresh cog succeeds and restores every guild it walks |
| VoiceChannels.SnapshotRoundTrip | src/modules/voice_channels/cog.py:59-103 | with non-zero ids, loading a snapshot into a fresh cog gives back the lobby and category maps and every `_g_*` lookup |
| VoiceChannels.ChooseBitrate | src/modules/voice_channels/cog.py:292-295 | the configured or lobby bitrate, lowered to the guild limit: the minimum of the two |
| VoiceChannels.RoomCategory | src/modules/voice_channels/cog.py:270-275 | the saved category when it is non-zero and is a category channel; otherwise the lobby's category |
| VoiceChannels.WithoutRoom | src/modules/voice_channels/cog.py:339-341 | exactly the owner entries that do not point at the room, with their values |
| VoiceChannels.Scheduled | src/modules/voice_channels/cog.py:314-355 | an untracked channel leaves the tasks as they are; an occupied room loses its task; an empty room keeps its task or gets a sleeping one with the guild's delay; no other channel's task changes |
| VoiceChannels.VoiceCog.constructor | src/modules/voice_channels/cog.py:37-52 | nothing is saved, tracked, scheduled or owned |
| VoiceChannels.VoiceCog.LoadConfig | src/modules/voice_channels/cog.py:73-103 | the new persisted state is the loader's result; a missing, blank or undecodable file changes nothing; the runtime maps are untouched |
| VoiceChannels.VoiceCog.LoadGuild | src/modules/voice_channels/cog.py:87-103 | one turn of the guild loop stores what the entry says |
| VoiceChannels.VoiceCog.VoiceSetup | src/modules/voice_channels/cog.py:147-172 | stores the lobby, and the category when given; user limit ≥ 0, bitrate = max(8000, kbps·1000), delay ≥ 5; an argument left `None` keeps the stored value, the raw bitrate included; rooms, tasks and owners are unchanged |
| VoiceChannels.VoiceCog.MaybeScheduleCleanup | src/modules/voice_channels/cog.py:314-355 | an untracked room is a no-op; an occupied room's task is cancelled and removed; an empty room without a task gets exactly one; an already scheduled one is unchanged |
| VoiceChannels.VoiceCog.ForgetOwners | src/modules/voice_channels/cog.py:339-341 | removes every owner mapping that points at the room |
| VoiceChannels.VoiceCog.FireCleanupAsWritten | src/modules/voice_channels/cog.py:333-353 | with members present nothing changes but the task's state; an empty room loses its owners and tracking whether or not the delete raises; the finished task stays in the map |
| VoiceChannels.VoiceCog.FireCleanup | src/modules/voice_channels/cog.py:333-353 | as above, but the task removes its own entry, so every pending task is still sleeping |
| VoiceChannels.VoiceCog.CreatePersonalChannel | src/modules/voice_channels/cog.py:265-312 | the room gets the new id, the category, the guild's user limit and the chosen bitrate; it is tracked and any stale cleanup entry for it is cancelled |
| VoiceChannels.VoiceCog.MoveToExistingOrCreate | src/modules/voice_channels/cog.py:230-263 | an existing room has its cleanup cancelled and nothing is created; a vanished room is forgotten; otherwise a room is created and mapped to its owner; the owner's room becomes `PlacedRoom` and the tracked rooms `PlacedRooms`, every other owner unchanged |
| VoiceChannels.PlacedRoom | src/modules/voice_channels/cog.py:235-256 | the member's room after placement: the recorded room when there is one and it still is a voice channel, otherwise the newly created one |
| VoiceChannels.PlacedRooms | src/modules/voice_channels/cog.py:250-256 | the tracked rooms after placement grow by at most the new room; only the member's vanished room can leave; the new room is tracked whenever it was needed |
| VoiceChannels.VoiceCog.OnVoiceStateUpdate | src/modules/voice_channels/cog.py:204-228 | the channel left is rescheduled first, as `Scheduled` says; a member is placed exactly when they joined the lobby, and then owns `PlacedRoom` with no pending deletion, the tracked rooms are `PlacedRooms` and no other owner changes; otherwise rooms and owners are unchanged and the tasks are exactly those after the reschedule; a placement drops no task but the lobby's, the room's and the member's previous room's |
| VoiceChannels.VoiceCog.PlaceFromLobby | src/modules/voice_channels/cog.py:226-263 | the member ends owning `PlacedRoom`, a tracked room with no pending deletion, and the tracked rooms are `PlacedRooms`; no other owner changes; no task is added but the lobby's, and none dropped but the lobby's, the room's and the member's previous room's; the persisted settings are unchanged |
| VoiceChannels.StrandedRoom | src/modules/voice_channels/cog.py:323-355 | after a visitor joins an emptied room directly and leaves again, the written cleanup leaves the room tracked with a finished task, so emptying it again schedules no deletion |
| VoiceChannels.RescheduledRoom | src/modules/voice_channels/cog.py:323-355 | with the corrected cleanup the same events schedule a fresh deletion |
| Admin.LastComponentAppend | src/modules/admin/cog.py:24-27 | the last dot component of `a.b` is that of `b` |
| Admin.FullExt | src/modules/admin/cog.py:18-27 | the result starts with `src.modules`, and a stripped name already starting so is returned as it is |
| Admin.FullExtShape | src/modules/admin/cog.py:18-27 | the result starts with `src.modules`; a stripped name already starting so is returned as it is; otherwise `src.modules.` plus the name, with `.cog` added exactly when the last component is not `cog` |
| Admin.FullExtIdempotent | src/modules/admin/cog.py:18-27 | normalising twice is normalising once |
| Admin.ResolveExt | src/modules/admin/cog.py:60 | load, unload and reload act on a name starting with `src.modules` |
| Admin.CogModules | src/modules/admin/cog.py:33-35 | keeps exactly the names ending in `.cog` |
| Admin.CogModulesAppend | src/modules/admin/cog.py:33-35 | the filter keeps discovery order |
| Admin.Insert | src/modules/admin/cog.py:36 | inserting keeps the list sorted and adds exactly one item |
| Admin.Sort | src/modules/admin/cog.py:36 | sorted, and a permutation of the input |
| Admin.AllExtensions | src/modules/admin/cog.py:29-36 | sorted, and a permutation of the discovered `.cog` modules |
| Admin.AllExtensionsSpec | src/modules/admin/cog.py:29-36 | sorted; every name ends in `.cog`; exactly the discovered cog modules, with repeats kept |
| Admin.Matching | src/modules/admin/cog.py:47 | keeps exactly the names containing `current`, ignoring case |
| Admin.MatchingAppend | src/modules/admin/cog.py:47 | the filter keeps `all_extensions` order |
| Admin.Autocomplete | src/modules/admin/cog.py:43-48 | at most 25 choices, and they are the first matches in `all_extensions` order |
| Admin.AutocompleteSpec | src/modules/admin/cog.py:43-48 | at most 25 choices, each a discovered extension matching `current`, in `all_extensions` order; fewer than 25 only when there are no more matches |
| Admin.Unloaded | src/modules/admin/cog.py:125-128 | disjoint from the loaded set, and together with the loaded available ones it makes up the available set |
| Registry.Registry.constructor | src/core/registry.py:6-7 | the registry starts empty |
| Registry.Registry.Add | src/core/registry.py:9-10 | binds or rebinds the key; every other entry is unchanged |
| Registry.Registry.Get | src/core/registry.py:12-13 | the bound value, or `KeyError` exactly when unbound |
| Registry.Registry.TryGet | src/core/registry.py:15-16 | the bound value, or `None` exactly when unbound |
| Registry.AddThenLookup | src/core/registry.py:9-16 | after `add(k, v)` both lookups give `v`; a second add overwrites; other keys keep their presence |
| Config.NonBlank | src/core/config.py:16 | keeps exactly the entries that are not blank after stripping; a list without a blank entry is kept as it is |
| Config.NonBlankAppend | src/core/config.py:16 | the filter keeps the order of the entries: it distributes over concatenation |
| Config.ParseIds | src/core/config.py:16 | succeeds exactly when every non-blank entry is an integer, giving them in order; otherwise fails on such an entry |
| Config.LoadSettings | src/core/config.py:12-17 | fails with the missing-token error exactly when the token is empty or unset; otherwise keeps the token and parses the guild ids |
| Config.EmptyGuildIds | src/core/config.py:16 | an empty `GUILD_IDS` gives no guild ids |
| Config.GuildIdsRoundTrip | src/core/config.py:16 | writing any id list, duplicates and order included, comma-separated, parses back to the same list |
| Config.IdsParse | src/core/config.py:16 | the decimal texts of a list of ids parse back to it |
| Config.LoadSettingsRoundTrip | src/core/config.py:12-17 | with the token set, `load_settings` returns exactly the ids written |
| Strings.ParseInt | src/modules/voice_channels/cog.py:89 | only a text that is not blank parses |
| Strings.IntToStringRoundTrip | src/modules/voice_channels/cog.py:59-89 | `int(str(i)) == i` for every integer, so snapshot keys parse back to their guild |

## Left out

- Discord I/O is not modelled. This covers replies, embeds, views and their buttons, `QueueView.embed`, `_updater`, and the `join`, `play`, `queue`, `nowplaying`, `volume` command bodies. It also covers `voice_status`, `kaneo_status`, `kaneo_test`, `reload_all`, `sync` and `shutdown`. These only format text or call Discord.
- Moving members with `move_to` is not modelled. Whether Discord lets a move happen is outside the bot.
- `src/core/bot.py`, `src/core/utils.py`, `src/modules/ping/cog.py` and `main.py` are not part of this model. They are discovery and start-up glue.
- Media resolution with yt_dlp and loading opus or FFmpeg are not modelled. They appear only as a resolved `Track` and an "attach fails" input.
- asyncio concurrency is not modelled. This covers task creation, the `finished`/`stop` race inside a pass, and the sleep in `ensure_connected`; the latter's outcome is the `settles` input, and a failing `move_to` or `connect` is the `fails` input. A `skip()` during the player loop is modelled only where it lands between passes, during the 0.2 s sleep (the round's `skipped` input); a skip landing during the wait simply ends that wait. A track whose wait a stale stop signal ended is taken to be still playing when the next pass calls `voice.play`; that call raising on a playing client follows discord.py's `VoiceClient.play`, which is not part of this model. The cleanup delay and its cancellation are explicit events (`FireCleanup`, or a task removed from the map). A cancellation arriving while the delete is in flight is not modelled.
- Music.GuildPlayer.Unmute: the volume is a whole percentage. The source stores `pct / 100.0` and restores with `int(target * 100)`, which can truncate (29% comes back as 28%). The exact restore holds only in the integer model.
- Music.GuildPlayer.Shuffle: the random draws are an input, so the contract only says the queue is a permutation.
- Music.GuildPlayer.PositionSeconds: the monotonic clock is a parameter.
- MusicFormat.ProgressFill: the fraction is an exact real, so there is no floating-point rounding.
- MusicFormat.RoundPercent: rounding is done on exact rationals. Float error in `percent / 100 * width` is not modelled.
- Kaneo networking is not modelled: the HTTP session, login, connectivity check, project lookup and feed probing. Their results are inputs (`reachable`, `loginOk`, `found`, `probe`, `reply`).
- Reading and writing the Kaneo and voice JSON files is not modelled. The voice file arrives already decoded, as a `ConfigFile`.
- `_poll_loop` is not modelled: its scheduling and its minimum interval over all guilds are timing. Only the per-guild interval (`Kaneo.PollInterval`) is modelled.
- Kaneo.KaneoCog.PollGuild: the routes' iteration order is an input list that must list each routed project once.
- VoiceChannels.VoiceCog.LoadConfig: on failure the contract gives the error, not the partially loaded state. The source raises out of the cog's constructor, so that state is never used. The dict order of the `guilds` object is an input list.
- VoiceChannels.SnapshotRoundTrip: it requires non-zero ids. The loader treats a zero id as absent, and Discord never issues one.
- JSON floats are not modelled. A non-integer `user_limit` or `delete_delay_sec` is either a string `int()` may parse or a failure.
- `int()` on text accepts an optional sign and ASCII digits with surrounding whitespace. Underscores and non-ASCII digits are not accepted.
- The failure of `create_voice_channel` is not modelled. The created channel's id is an input and is assumed unused.
- `_save_config` and `cog_unload` of the voice cog are not modelled. Only the snapshot they write is modelled.
- `Settings` being frozen is not modelled as such: a Dafny datatype value cannot change after creation.
- KaneoHelpers.TextField: a present text field whose value is not a string (a number, say) is refused with `NotAString`. `from_dict` stores such a value as it is, but the model's `GuildConfig` holds text only.
- KaneoHelpers.FromDict: refuses a non-string `base_url`, `path_prefix`, `email` or `password` for the same reason, where the source accepts it.
- KaneoHelpers.StrValues: `str()` of a list or a dict is shown by a fixed placeholder (`[…]`, `{…}`), not Python's `repr` text. The same applies to a list or dict cursor (`Kaneo.Cursor`, `src/modules/kaneo/cog.py:495`) and to a list or dict title, type or author in a message (`KaneoHelpers.FormatMessage`, `src/modules/kaneo/cog.py:552-554`).
- Admin.Matching: `lower()` is modelled for ASCII letters only (`Strings.Lower`). Python also lowers other letters, such as `É` or the Kelvin sign, so for such names the model can disagree on whether a name matches.
- Music.GuildPlayer.TotalQueueSeconds: durations are exact reals (`Music.SumDurations`), so the float rounding of Python's `sum` is not modelled. Only the truncation by `int()` is.

## Findings

| source | as written | input that shows it | evidently intended | confidence | as-written member | corrected member |
|---|---|---|---|---|---|---|
| src/modules/voice_channels/cog.py:330-337 | when `_cleanup` wakes and members are present it returns, but its finished task stays in `_cleanup_tasks`; the next time the room empties, the "already scheduled" check returns early, so no deletion is scheduled; the stale entry is cleared only by a later occupied check (a leave with members still present, lines 323-327) or when the owner re-enters through the lobby (line 240) | a personal room empties; a member joins it directly (not through the lobby, so nothing cancels the task); the task wakes and returns; the member leaves | the task removes its own entry when it returns early, so the next emptying schedules a new deletion | medium, not executed | VoiceChannels.StrandedRoom | VoiceChannels.RescheduledRoom |
