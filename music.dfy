/** The per-guild music player of `src/modules/music/cog.py`: the queue, the
    current track, the volume with its last non-zero value, the voice client's
    connection and playback state, the playback loop, and the cog's map from
    guild id to player with the commands that edit a player's queue. */
module Music {
  import opened Wrappers
  import opened Strings
  import opened MusicFormat

  /** A resolved track. `url` is the stream address, `webUrl` the page. */
  datatype Track = Track(title: string, url: string, webUrl: string, duration: real, requestedBy: string)

  datatype Playback = Silent | Playing | Paused

  /** The state of a guild's voice client as the player observes it:
      whether it is connected or still connecting, the channel it is in, and
      whether audio is playing or paused. */
  datatype VoiceClient = VoiceClient(connected: bool, connecting: bool, channel: int, playback: Playback)

  /** The `_play_task` field: no task yet, the loop running, or finished. */
  datatype LoopTask = NoTask | Running | Done

  /** What the outside world supplies to one pass of the playback loop:
      whether a `skip()` lands just before the pass (while the previous pass
      sleeps, or for the first pass after the task was created), the members
      of the voice channel at the top of the pass, whether opening the stream
      fails, the clock reading when playback starts, and whether the client
      loses its connection while the pass waits. */
  datatype Round = Round(skipped: bool, members: seq<int>, attachFails: bool, now: real, drops: bool)

  /** How one pass of the playback loop ends. */
  datatype PassOutcome = ChannelEmptied | LostVoice | Dropped | AttachRaised | Played

  const MaxVolume := 200
  const DefaultVolume := 100

  /** `sum(1 for m in members if m.id != bot)` */
  function CountOthers(members: seq<int>, bot: int): (n: nat)
    ensures n <= |members|
  {
    if members == [] then 0
    else (if members[0] != bot then 1 else 0) + CountOthers(members[1..], bot)
  }

  /** How often `bot` itself appears among the members. */
  function Occurrences(members: seq<int>, bot: int): nat {
    if members == [] then 0
    else (if members[0] == bot then 1 else 0) + Occurrences(members[1..], bot)
  }

  /** Every member is either the bot or one of the others. */
  lemma {:induction false} OthersPlusSelf(members: seq<int>, bot: int)
    ensures CountOthers(members, bot) + Occurrences(members, bot) == |members|
  {
    if members != [] {
      OthersPlusSelf(members[1..], bot);
    }
  }

  /** Nobody else is there exactly when every member is the bot. */
  lemma {:induction false} NoOthers(members: seq<int>, bot: int)
    ensures CountOthers(members, bot) == 0 <==> forall i :: 0 <= i < |members| ==> members[i] == bot
  {
    if members != [] {
      NoOthers(members[1..], bot);
      assert forall i :: 1 <= i < |members| ==> members[i] == members[1..][i - 1];
    }
  }

  /** `others_in_channel_count()`: zero without a voice client or a bot user,
      otherwise the channel's members other than the bot. */
  function OthersCount(hasVoice: bool, botUser: Option<int>, members: seq<int>): (n: nat)
    ensures n <= |members|
    ensures !hasVoice || botUser.None? ==> n == 0
  {
    if !hasVoice || botUser.None? then 0 else CountOthers(members, botUser.value)
  }

  /** The total length of a queue, in seconds: zero for an empty queue and
      never negative when no track has a negative duration. */
  function SumDurations(q: seq<Track>): (r: real)
    ensures q == [] ==> r == 0.0
    ensures (forall i :: 0 <= i < |q| ==> q[i].duration >= 0.0) ==> r >= 0.0
    ensures |q| == 1 ==> r == q[0].duration
  {
    if q == [] then 0.0 else q[0].duration + SumDurations(q[1..])
  }

  lemma {:induction false} SumDurationsAppend(a: seq<Track>, b: seq<Track>)
    ensures SumDurations(a + b) == SumDurations(a) + SumDurations(b)
  {
    if a == [] {
      assert a + b == b;
    } else {
      assert (a + b)[1..] == a[1..] + b;
      SumDurationsAppend(a[1..], b);
    }
  }

  /** Python's `int(x)` on a float: truncation toward zero. */
  function Trunc(x: real): (r: int)
    ensures x >= 0.0 ==> r >= 0 && r as real <= x < r as real + 1.0
    ensures x < 0.0 ==> r <= 0 && r as real - 1.0 < x <= r as real
  {
    if x >= 0.0 then x.Floor else -((-x).Floor)
  }

  /** `random.shuffle` on a list: from the last position down to the second,
      swap each item with one at or before it, chosen by the next draw. */
  method FisherYates(q: seq<Track>, rolls: seq<nat>) returns (r: seq<Track>)
    ensures |r| == |q|
    ensures multiset(r) == multiset(q)
  {
    if q == [] {
      return q;
    }
    var a := new Track[|q|](k requires 0 <= k < |q| => q[k]);
    assert a[..] == q;
    var i := a.Length - 1;
    var draw := 0;
    while i > 0
      invariant 0 <= i < a.Length
      invariant multiset(a[..]) == multiset(q)
      decreases i
    {
      var j := (if draw < |rolls| then rolls[draw] else 0) % (i + 1);
      a[i], a[j] := a[j], a[i];
      i := i - 1;
      draw := draw + 1;
    }
    r := a[..];
  }

  /** The tracks that the loop's first `n` passes attached and played. */
  function PlayedUpTo(q: seq<Track>, env: nat -> Round, n: nat): (p: seq<Track>)
    requires n <= |q|
    ensures |p| <= n
  {
    if n == 0 then []
    else PlayedUpTo(q, env, n - 1) + (if env(n - 1).attachFails then [] else [q[n - 1]])
  }

  /** The voice client's playback together with the stop signal: the two
      things a `skip()` touches. */
  datatype Audio = Audio(playback: Playback, stopSet: bool)

  /** The audio after the `skip()` that `r` may bring: playing audio is
      stopped and the stop signal is set. */
  function Arrived(a: Audio, r: Round): (b: Audio)
    ensures !r.skipped ==> b == a
    ensures r.skipped ==> b.stopSet && b.playback != Playing
    ensures r.skipped && a.playback != Playing ==> b.playback == a.playback
  {
    if r.skipped then Audio(if a.playback == Playing then Silent else a.playback, true) else a
  }

  /** The audio at the top of pass `n`, from `a0` at the top of the first,
      when every earlier pass found the client connected and either dropped
      its track or played it. A played pass clears the stop signal; when the
      signal was already set as its wait began, the wait returns at once and
      the audio plays on into the next pass. */
  function AudioAt(a0: Audio, env: nat -> Round, n: nat): (a: Audio)
    ensures n > 0 && !env(n - 1).attachFails ==> !a.stopSet
    ensures n > 0 && !env(n - 1).attachFails ==>
      (a.playback == Playing <==> Arrived(AudioAt(a0, env, n - 1), env(n - 1)).stopSet)
  {
    if n == 0 then a0
    else
      var b := Arrived(AudioAt(a0, env, n - 1), env(n - 1));
      if env(n - 1).attachFails then b else Audio(if b.stopSet then Playing else Silent, false)
  }

  /** Pass `n - 1` opens its stream and hands it to a client that is still
      playing, so that `voice.play` raises. */
  predicate AttachRaises(a0: Audio, env: nat -> Round, n: nat) {
    n > 0 && !env(n - 1).attachFails && Arrived(AudioAt(a0, env, n - 1), env(n - 1)).playback == Playing
  }

  /** With nothing playing, no stop signal set and no `skip()` landing, no
      pass leaves audio playing or the signal set, so none raises. */
  lemma {:induction false} QuietPassesNeverRaise(a0: Audio, env: nat -> Round, n: nat)
    requires a0.playback != Playing && !a0.stopSet
    requires forall k :: 0 <= k < n ==> !env(k).skipped
    ensures AudioAt(a0, env, n).playback != Playing && !AudioAt(a0, env, n).stopSet
    ensures !AttachRaises(a0, env, n)
  {
    if n > 0 {
      QuietPassesNeverRaise(a0, env, n - 1);
    }
  }

  /** A `skip()` landing before a pass leaves the stop signal set, so that
      pass's wait ends at once with its track playing on, and the next pass
      raises in `voice.play`. */
  lemma StaleStopRaises(a0: Audio, env: nat -> Round)
    requires env(0).skipped && !env(1).skipped
    requires !env(0).attachFails && !env(1).attachFails
    ensures !AttachRaises(a0, env, 1)
    ensures AudioAt(a0, env, 1) == Audio(Playing, false)
    ensures AttachRaises(a0, env, 2)
  {
  }

  /** Every mutable field of a guild player, taken together. */
  datatype PlayerState = PlayerState(queue: seq<Track>, current: Option<Track>, voice: Option<VoiceClient>,
                                     task: LoopTask, liveLoops: nat, stopSet: bool, startedAt: Option<real>,
                                     volume: int, pcm: Option<int>, lastNonzero: int)

  /** The fields of a player fresh from `GuildPlayer(guild)`. */
  const FreshState := PlayerState([], None, None, NoTask, 0, false, None, DefaultVolume, None, DefaultVolume)

  /** What `skip()` does: audio that is playing is stopped and the stop
      signal is set; nothing else changes. */
  function Skipped(s: PlayerState): (t: PlayerState)
    ensures t.stopSet
    ensures t.voice.Some? <==> s.voice.Some?
    ensures t.voice.Some? ==> t.voice.value.playback != Playing
    ensures s.voice.Some? && s.voice.value.playback != Playing ==> t.voice == s.voice
    ensures t.(voice := s.voice, stopSet := s.stopSet) == s
  {
    var voice := if s.voice.Some? && s.voice.value.playback == Playing
                 then Some(s.voice.value.(playback := Silent)) else s.voice;
    s.(voice := voice, stopSet := true)
  }

  /** What `teardown()` leaves when the disconnect `raised` or not: an empty
      queue, the stop signal set, playing audio stopped, a connected client
      disconnected unless that raised, and no current track, start time or
      transformer; the volume and the task are untouched. */
  function TornDown(s: PlayerState, raised: bool): (t: PlayerState)
    ensures t.queue == [] && t.stopSet && t.current.None? && t.startedAt.None? && t.pcm.None?
    ensures t.volume == s.volume && t.lastNonzero == s.lastNonzero && t.task == s.task && t.liveLoops == s.liveLoops
    ensures t.voice.Some? <==> s.voice.Some?
    ensures t.voice.Some? ==> t.voice.value.channel == s.voice.value.channel && t.voice.value.playback != Playing
    ensures t.voice.Some? ==> (t.voice.value.connected <==> s.voice.value.connected && raised)
  {
    var stopped := Skipped(s).voice;
    var voice := if stopped.Some? && stopped.value.connected && !raised
                 then Some(stopped.value.(connected := false, playback := Silent)) else stopped;
    s.(queue := [], stopSet := true, voice := voice, current := None, startedAt := None, pcm := None)
  }

  /** None of the first `n` passes lost the client's connection. */
  predicate KeptConnection(env: nat -> Round, n: nat) {
    forall k :: 0 <= k < n ==> !env(k).drops
  }

  /** How many of `n` passes found the client connected: all of them, unless
      the next-to-last one lost it, so that the last found it gone. */
  function ConnectedPasses(env: nat -> Round, n: nat): (m: nat)
    ensures m <= n
    ensures m < n ==> n >= 2 && m == n - 1 && env(n - 2).drops
  {
    if n >= 2 && env(n - 2).drops then n - 1 else n
  }

  /** A loop that started from `s0` ended at its `n`-th pass because that
      pass handed its track to a client still playing. */
  predicate RaisedAtAttach(s0: PlayerState, env: nat -> Round, n: nat) {
    && s0.voice.Some? && s0.voice.value.connected
    && ConnectedPasses(env, n) == n
    && AttachRaises(Audio(s0.voice.value.playback, s0.stopSet), env, n)
  }

  /** The state a pass starts from: `s` after the `skip()` that `r` may
      bring. */
  function AfterSkip(s: PlayerState, r: Round): (t: PlayerState)
    ensures t.queue == s.queue && t.current == s.current && t.startedAt == s.startedAt && t.pcm == s.pcm
    ensures t.voice.Some? <==> s.voice.Some?
    ensures t.voice.Some? ==>
      && t.voice.value.channel == s.voice.value.channel && t.voice.value.connected == s.voice.value.connected
      && Audio(t.voice.value.playback, t.stopSet) == Arrived(Audio(s.voice.value.playback, s.stopSet), r)
  {
    if r.skipped then Skipped(s) else s
  }

  /** One pass of `_player_loop()` from the state `s` over a non-empty
      queue, with `botUser` the bot's id: how it ends and the state it
      leaves. An empty channel ends the loop with nothing changed. Otherwise
      the head is popped and becomes the current track; without a connected
      client the loop then ends; a stream that cannot be opened drops the
      track; a client still playing makes `voice.play` raise; otherwise the
      track plays at the volume, and once it ends or the stop signal fires
      the signal is cleared and the transformer released. A signal already
      set as the wait begins ends the wait at once, the audio playing on. A
      pass that waits may lose the connection (`r.drops`). */
  function Passed(s: PlayerState, r: Round, botUser: Option<int>): (p: (PassOutcome, PlayerState))
    requires s.queue != []
    ensures p.0 == ChannelEmptied <==> OthersCount(s.voice.Some?, botUser, r.members) == 0
    ensures p.0 == ChannelEmptied ==> p.1 == s
    ensures p.0 != ChannelEmptied ==> p.1.queue == s.queue[1..]
    ensures p.0 == LostVoice <==> p.0 != ChannelEmptied && !(s.voice.Some? && s.voice.value.connected)
    ensures p.0 == Dropped <==> p.0 != ChannelEmptied && p.0 != LostVoice && r.attachFails
    ensures p.0 == AttachRaised <==>
      p.0 != ChannelEmptied && p.0 != LostVoice && !r.attachFails && s.voice.Some? && s.voice.value.playback == Playing
    ensures p.1.volume == s.volume && p.1.lastNonzero == s.lastNonzero
    ensures p.1.task == s.task && p.1.liveLoops == s.liveLoops
    ensures p.1.voice.Some? <==> s.voice.Some?
    ensures p.1.voice.Some? ==>
      && p.1.voice.value.channel == s.voice.value.channel
      && p.1.voice.value.connected == (s.voice.value.connected && !((p.0 == Dropped || p.0 == Played) && r.drops))
      && Audio(p.1.voice.value.playback, p.1.stopSet)
         == if p.0 == Played then Audio(if s.stopSet then Playing else Silent, false)
            else Audio(s.voice.value.playback, s.stopSet)
    ensures p.1.voice.None? ==> p.1.stopSet == s.stopSet
    ensures p.0 == LostVoice ==> p.1.current == Some(s.queue[0]) && p.1.startedAt.None? && p.1.pcm == s.pcm
    ensures p.0 == Dropped ==> p.1.current.None? && p.1.startedAt.None? && p.1.pcm == s.pcm
    ensures p.0 == AttachRaised ==> p.1.current == Some(s.queue[0]) && p.1.startedAt.None? && p.1.pcm == Some(s.volume)
    ensures p.0 == Played ==> p.1.current == Some(s.queue[0]) && p.1.startedAt == Some(r.now) && p.1.pcm.None?
  {
    if OthersCount(s.voice.Some?, botUser, r.members) == 0 then (ChannelEmptied, s)
    else
      var popped := s.(current := Some(s.queue[0]), queue := s.queue[1..], startedAt := None);
      if !(s.voice.Some? && s.voice.value.connected) then (LostVoice, popped)
      else
        var v := s.voice.value;
        if r.attachFails then (Dropped, popped.(current := None, voice := Some(v.(connected := !r.drops))))
        else if v.playback == Playing then (AttachRaised, popped.(pcm := Some(s.volume)))
        else
          (Played, popped.(voice := Some(v.(playback := if s.stopSet then Playing else Silent, connected := !r.drops)),
                           startedAt := Some(r.now), stopSet := false, pcm := None))
  }

  class GuildPlayer {
    /** The bot's own user id, `None` before login. */
    const botUser: Option<int>
    /** `queue`, the pending tracks in play order. */
    var queue: seq<Track>
    var current: Option<Track>
    var voice: Option<VoiceClient>
    /** `_play_task` */
    var task: LoopTask
    /** How many playback loops are alive for this player. */
    ghost var liveLoops: nat
    /** `_stop_event` */
    var stopSet: bool
    /** `_started_at`, a clock reading. */
    var startedAt: Option<real>
    /** `volume`, held as a whole percentage (`volume * 100`). */
    var volume: int
    /** `_pcm`: the live volume transformer, held as its volume percentage. */
    var pcm: Option<int>
    /** `_last_nonzero_volume`, as a percentage. */
    var lastNonzero: int

    /** The volume stays within 0–200%, the remembered non-zero volume is
        positive, the live transformer plays at the stored volume, and at most
        one playback loop is alive, exactly when the task is running. */
    ghost predicate Valid()
      reads this
    {
      && 0 <= volume <= MaxVolume
      && 0 < lastNonzero <= MaxVolume
      && (pcm.Some? ==> pcm.value == volume)
      && liveLoops == (if task == Running then 1 else 0)
    }

    /** All of the player's mutable fields at once. */
    ghost function State(): PlayerState
      reads this
    {
      PlayerState(queue, current, voice, task, liveLoops, stopSet, startedAt, volume, pcm, lastNonzero)
    }

    constructor (botUser: Option<int>)
      ensures Valid()
      ensures this.botUser == botUser
      ensures queue == [] && current.None? && voice.None? && task == NoTask
      ensures !stopSet && startedAt.None? && pcm.None?
      ensures volume == DefaultVolume && lastNonzero == DefaultVolume
      ensures State() == FreshState
    {
      this.botUser := botUser;
      queue := [];
      current := None;
      voice := None;
      task := NoTask;
      liveLoops := 0;
      stopSet := false;
      startedAt := None;
      volume := DefaultVolume;
      pcm := None;
      lastNonzero := DefaultVolume;
    }

    /** `others_in_channel_count()` for the members of the voice channel:
        none without a client or a bot user, otherwise the members that are
        not the bot, so never more than the members there are. */
    function OthersInChannel(members: seq<int>): (n: nat)
      reads this
      ensures n <= |members|
      ensures voice.None? || botUser.None? ==> n == 0
      ensures voice.Some? && botUser.Some? ==> n + Occurrences(members, botUser.value) == |members|
    {
      OthersPlusSelf(members, if botUser.Some? then botUser.value else 0);
      OthersCount(voice.Some?, botUser, members)
    }

    /** `channel_empty_excluding_self()`: true exactly when there is no
        client, no bot user, or every member is the bot. */
    predicate ChannelEmpty(members: seq<int>)
      reads this
      ensures ChannelEmpty(members) <==>
        voice.None? || botUser.None? || forall i :: 0 <= i < |members| ==> members[i] == botUser.value
    {
      NoOthers(members, if botUser.Some? then botUser.value else 0);
      OthersInChannel(members) == 0
    }

    /** `teardown()`: the queue is emptied and the stop signal set, playing
        audio stopped and a connected client disconnected; whether or not the
        disconnect raises, the current track, the start time and the volume
        transformer are cleared. `raised` reports the propagated exception. */
    method Teardown(disconnectRaises: bool) returns (raised: bool)
      requires Valid()
      modifies this
      ensures Valid()
      ensures queue == [] && stopSet
      ensures current.None? && startedAt.None? && pcm.None?
      ensures raised <==> old(voice).Some? && old(voice).value.connected && disconnectRaises
      ensures voice.Some? <==> old(voice).Some?
      ensures voice.Some? ==> voice.value.channel == old(voice).value.channel
      ensures voice.Some? ==> voice.value.playback != Playing
      ensures voice.Some? && !raised ==> !voice.value.connected
      ensures volume == old(volume) && lastNonzero == old(lastNonzero)
      ensures task == old(task) && liveLoops == old(liveLoops)
      ensures State() == TornDown(old(State()), raised)
    {
      queue := [];
      stopSet := true;
      if voice.Some? && voice.value.playback == Playing {
        voice := Some(voice.value.(playback := Silent));
      }
      raised := false;
      if voice.Some? && voice.value.connected {
        if disconnectRaises {
          raised := true;
        } else {
          voice := Some(voice.value.(connected := false, playback := Silent));
        }
      }
      current := None;
      startedAt := None;
      pcm := None;
    }

    /** `total_queue_seconds()`: the queue's total duration truncated to
        whole seconds; for non-negative durations the whole seconds not
        exceeding the total. */
    function TotalQueueSeconds(): (r: int)
      reads this
      ensures queue == [] ==> r == 0
      ensures (forall i :: 0 <= i < |queue| ==> queue[i].duration >= 0.0) ==>
        0 <= r && r as real <= SumDurations(queue) < r as real + 1.0
    {
      Trunc(SumDurations(queue))
    }

    /** `position_seconds()` at clock reading `now`: zero before playback
        starts, otherwise the time since it started and never negative. */
    function PositionSeconds(now: real): (r: real)
      reads this
      ensures r >= 0.0
      ensures startedAt.None? ==> r == 0.0
      ensures startedAt.Some? && now >= startedAt.value ==> r == now - startedAt.value
    {
      if startedAt.None? then 0.0
      else if now - startedAt.value < 0.0 then 0.0
      else now - startedAt.value
    }

    /** `ensure_connected(channel)`. A connected client moves to `target` if it
        is elsewhere. A client still connecting is given time to finish;
        `settles` says whether it does. Without a connected client after that,
        a new connection to `target` is made. `fails` says whether the
        `move_to` or `connect` call made, if one is, raises; the exception
        propagates (`raised`) and the client is left as it was. */
    method EnsureConnected(target: int, settles: bool, fails: bool) returns (raised: bool)
      requires Valid()
      modifies this
      ensures Valid()
      ensures raised <==>
        && fails
        && (if old(voice).Some? && old(voice).value.connected then old(voice).value.channel != target
            else !(old(voice).Some? && old(voice).value.connecting && settles))
      ensures raised ==> voice == old(voice)
      ensures !raised ==> voice.Some? && voice.value.connected
      ensures !raised && old(voice).Some? && old(voice).value.connected ==>
        voice == Some(old(voice).value.(channel := target))
      ensures old(voice).Some? && !old(voice).value.connected && old(voice).value.connecting && settles ==>
        voice == Some(old(voice).value.(connected := true, connecting := false))
      ensures !raised && !(old(voice).Some? && (old(voice).value.connected || (old(voice).value.connecting && settles))) ==>
        voice == Some(VoiceClient(true, false, target, Silent))
      ensures queue == old(queue) && current == old(current) && volume == old(volume)
      ensures lastNonzero == old(lastNonzero) && pcm == old(pcm) && task == old(task)
      ensures stopSet == old(stopSet) && startedAt == old(startedAt) && liveLoops == old(liveLoops)
    {
      raised := false;
      if voice.Some? && voice.value.connected {
        if voice.value.channel != target {
          if fails {
            return true;
          }
          voice := Some(voice.value.(channel := target));
        }
        return;
      }
      if voice.Some? && voice.value.connecting && settles {
        voice := Some(voice.value.(connected := true, connecting := false));
      }
      if !(voice.Some? && voice.value.connected) {
        if fails {
          return true;
        }
        voice := Some(VoiceClient(true, false, target, Silent));
      }
    }

    /** `add(track)`: the track goes to the tail. A playback loop is started
        (after clearing the stop signal) only when none is running, so there
        is never more than one. */
    method Add(track: Track) returns (started: bool)
      requires Valid()
      modifies this
      ensures Valid()
      ensures queue == old(queue) + [track]
      ensures started <==> old(task) != Running
      ensures task == Running && liveLoops == 1
      ensures stopSet == (if started then false else old(stopSet))
      ensures current == old(current) && voice == old(voice) && volume == old(volume)
      ensures lastNonzero == old(lastNonzero) && pcm == old(pcm) && startedAt == old(startedAt)
    {
      queue := queue + [track];
      started := task != Running;
      if started {
        stopSet := false;
        task := Running;
        liveLoops := liveLoops + 1;
      }
    }

    /** `skip()`: stops playing audio and sets the stop signal. */
    method Skip()
      requires Valid()
      modifies this
      ensures Valid()
      ensures stopSet
      ensures voice.Some? <==> old(voice).Some?
      ensures old(voice).Some? ==>
        voice.value == (if old(voice).value.playback == Playing
                        then old(voice).value.(playback := Silent) else old(voice).value)
      ensures queue == old(queue) && current == old(current) && volume == old(volume)
      ensures lastNonzero == old(lastNonzero) && pcm == old(pcm) && task == old(task)
      ensures startedAt == old(startedAt) && liveLoops == old(liveLoops)
      ensures State() == Skipped(old(State()))
    {
      if voice.Some? && voice.value.playback == Playing {
        voice := Some(voice.value.(playback := Silent));
      }
      stopSet := true;
    }

    /** `shuffle()`: Python's Fisher–Yates shuffle of the queue. `rolls[k]`
        stands for the `k`-th random draw (taken modulo the range it must
        fall in, a missing draw counts as 0). */
    method Shuffle(rolls: seq<nat>)
      requires Valid()
      modifies this
      ensures Valid()
      ensures |queue| == |old(queue)|
      ensures multiset(queue) == multiset(old(queue))
      ensures current == old(current) && voice == old(voice) && volume == old(volume)
      ensures lastNonzero == old(lastNonzero) && pcm == old(pcm) && task == old(task)
      ensures stopSet == old(stopSet) && startedAt == old(startedAt) && liveLoops == old(liveLoops)
    {
      if queue == [] {
        return;
      }
      queue := FisherYates(queue, rolls);
    }

    /** `clear_queue()` */
    method ClearQueue()
      requires Valid()
      modifies this
      ensures Valid()
      ensures queue == []
      ensures current == old(current) && voice == old(voice) && volume == old(volume)
      ensures lastNonzero == old(lastNonzero) && pcm == old(pcm) && task == old(task)
      ensures stopSet == old(stopSet) && startedAt == old(startedAt) && liveLoops == old(liveLoops)
    {
      queue := [];
    }

    /** `volume_percent()` */
    function VolumePercent(): (r: int)
      reads this
      requires Valid()
      ensures 0 <= r <= MaxVolume
    {
      volume
    }

    /** `set_volume_percent(percent)`: the clamped percentage becomes the
        volume (and the live transformer's), is remembered when positive, and
        is returned. */
    method SetVolumePercent(percent: int) returns (pct: int)
      requires Valid()
      modifies this
      ensures Valid()
      ensures pct == Clamp(percent, 0, MaxVolume)
      ensures volume == pct && VolumePercent() == pct
      ensures lastNonzero == (if pct > 0 then pct else old(lastNonzero))
      ensures pcm == (if old(pcm).Some? then Some(pct) else None)
      ensures queue == old(queue) && current == old(current) && voice == old(voice)
      ensures task == old(task) && stopSet == old(stopSet) && startedAt == old(startedAt)
      ensures liveLoops == old(liveLoops)
    {
      pct := Clamp(percent, 0, MaxVolume);
      volume := pct;
      if volume > 0 {
        lastNonzero := volume;
      }
      if pcm.Some? {
        pcm := Some(volume);
      }
    }

    /** `mute()`: remembers a positive volume, then sets the volume to zero. */
    method Mute()
      requires Valid()
      modifies this
      ensures Valid()
      ensures volume == 0
      ensures lastNonzero == (if old(volume) > 0 then old(volume) else old(lastNonzero))
      ensures pcm == (if old(pcm).Some? then Some(0) else None)
      ensures queue == old(queue) && current == old(current) && voice == old(voice)
      ensures task == old(task) && stopSet == old(stopSet) && startedAt == old(startedAt)
      ensures liveLoops == old(liveLoops)
    {
      if volume > 0 {
        lastNonzero := volume;
      }
      var _ := SetVolumePercent(0);
    }

    /** `unmute()`: restores the remembered non-zero volume. Because that
        value is always positive, the 100% fallback is never taken. */
    method Unmute() returns (pct: int)
      requires Valid()
      modifies this
      ensures Valid()
      ensures pct == old(lastNonzero) && volume == pct && lastNonzero == pct
      ensures pcm == (if old(pcm).Some? then Some(pct) else None)
      ensures queue == old(queue) && current == old(current) && voice == old(voice)
      ensures task == old(task) && stopSet == old(stopSet) && startedAt == old(startedAt)
      ensures liveLoops == old(liveLoops)
    {
      var target := if lastNonzero > 0 then lastNonzero else DefaultVolume;
      pct := SetVolumePercent(target);
    }

    /** `pause()`: pauses playing audio and reports whether it did. */
    method Pause() returns (paused: bool)
      requires Valid()
      modifies this
      ensures Valid()
      ensures paused <==> old(voice).Some? && old(voice).value.playback == Playing
      ensures voice == (if paused then Some(old(voice).value.(playback := Paused)) else old(voice))
      ensures queue == old(queue) && current == old(current) && volume == old(volume)
      ensures lastNonzero == old(lastNonzero) && pcm == old(pcm) && task == old(task)
      ensures stopSet == old(stopSet) && startedAt == old(startedAt) && liveLoops == old(liveLoops)
    {
      if voice.Some? && voice.value.playback == Playing {
        voice := Some(voice.value.(playback := Paused));
        return true;
      }
      return false;
    }

    /** `resume()`: resumes paused audio and reports whether it did. */
    method Resume() returns (resumed: bool)
      requires Valid()
      modifies this
      ensures Valid()
      ensures resumed <==> old(voice).Some? && old(voice).value.playback == Paused
      ensures voice == (if resumed then Some(old(voice).value.(playback := Playing)) else old(voice))
      ensures queue == old(queue) && current == old(current) && volume == old(volume)
      ensures lastNonzero == old(lastNonzero) && pcm == old(pcm) && task == old(task)
      ensures stopSet == old(stopSet) && startedAt == old(startedAt) && liveLoops == old(liveLoops)
    {
      if voice.Some? && voice.value.playback == Paused {
        voice := Some(voice.value.(playback := Playing));
        return true;
      }
      return false;
    }

    /** One pass of `_player_loop()` over a non-empty queue, as `Passed`
        describes it. */
    method Pass(r: Round) returns (outcome: PassOutcome)
      requires Valid() && queue != [] && task == Running
      modifies this
      ensures Valid() && task == Running
      ensures (outcome, State()) == Passed(old(State()), r, botUser)
    {
      if OthersCount(voice.Some?, botUser, r.members) == 0 {
        return ChannelEmptied;
      }
      current := Some(queue[0]);
      queue := queue[1..];
      startedAt := None;
      if !(voice.Some? && voice.value.connected) {
        return LostVoice;
      }
      if r.attachFails {
        current := None;
        outcome := Dropped;
      } else {
        pcm := Some(volume);
        if voice.value.playback == Playing {
          // `voice.play` refuses a client that is already playing.
          return AttachRaised;
        }
        voice := Some(voice.value.(playback := Playing));
        startedAt := Some(r.now);
        // The wait ends when the track does or the stop signal fires; a
        // signal set before the wait began ends it at once, audio playing.
        if !stopSet {
          voice := Some(voice.value.(playback := Silent));
        }
        stopSet := false;
        pcm := None;
        outcome := Played;
      }
      if r.drops {
        voice := Some(voice.value.(connected := false));
      }
    }

    /** `_player_loop()`, run as the player's task with `env(k)` describing
        the `k`-th pass and `exitMembers` the channel's members when the loop
        ends. A pass starts only while tracks are queued and someone besides
        the bot is in the channel; it pops the head of the queue whatever
        happens next: without a connected client the loop then stops (the
        track is lost), a track whose stream cannot be opened is dropped, and
        a track handed to a client still playing ends the task with the
        exception `voice.play` raises, skipping the exit code. On a normal
        exit an empty channel is left; unless that disconnect raises, the
        current track, start time and transformer are then cleared.
        `popped` counts the passes; `played` lists the tracks handed to the
        voice client; `raised` reports an exception ending the task. */
    method RunPlayerLoop(env: nat -> Round, exitMembers: seq<int>, disconnectRaises: bool)
      returns (popped: nat, played: seq<Track>, raised: bool)
      requires Valid() && task == Running
      modifies this
      ensures Valid()
      ensures popped <= |old(queue)| && queue == old(queue)[popped..]
      ensures forall k :: 0 <= k < popped ==> OthersCount(old(voice).Some?, botUser, env(k).members) > 0
      ensures popped < |old(queue)| ==>
        || OthersCount(old(voice).Some?, botUser, env(popped).members) == 0
        || !(old(voice).Some? && old(voice).value.connected)
        || ConnectedPasses(env, popped) < popped
        || RaisedAtAttach(old(State()), env, popped)
      ensures !(old(voice).Some? && old(voice).value.connected) ==> popped <= 1 && played == []
      ensures old(voice).Some? && old(voice).value.connected ==>
        && (forall k :: 0 <= k && k + 1 < ConnectedPasses(env, popped) ==> !env(k).drops)
        && played == PlayedUpTo(old(queue), env, if RaisedAtAttach(old(State()), env, popped) then popped - 1
                                                 else ConnectedPasses(env, popped))
      ensures raised <==>
        || RaisedAtAttach(old(State()), env, popped)
        || (&& old(voice).Some? && old(voice).value.connected && KeptConnection(env, popped)
            && OthersCount(true, botUser, exitMembers) == 0 && disconnectRaises)
      ensures RaisedAtAttach(old(State()), env, popped) ==>
        current == Some(old(queue)[popped - 1]) && startedAt.None? && pcm == Some(volume)
      ensures !raised ==> current.None? && startedAt.None? && pcm.None?
      ensures raised && !RaisedAtAttach(old(State()), env, popped) && popped > 0 && env(popped - 1).attachFails ==>
        current.None?
      ensures raised && !RaisedAtAttach(old(State()), env, popped) && popped > 0 && !env(popped - 1).attachFails ==>
        current == Some(old(queue)[popped - 1]) && startedAt == Some(env(popped - 1).now)
      ensures task == Done && liveLoops == 0
      ensures voice.Some? <==> old(voice).Some?
      ensures voice.Some? ==> voice.value.channel == old(voice).value.channel
      ensures voice.Some? ==> (voice.value.connected <==>
        if RaisedAtAttach(old(State()), env, popped) then true
        else
          && old(voice).value.connected && KeptConnection(env, popped)
          && (OthersCount(old(voice).Some?, botUser, exitMembers) > 0 || disconnectRaises))
      ensures volume == old(volume) && lastNonzero == old(lastNonzero)
    {
      ghost var connected := voice.Some? && voice.value.connected;
      var attachRaised;
      popped, played, attachRaised := PlayPasses(env);
      if attachRaised {
        // The exception from `voice.play` ends the task before the exit code.
        task := Done;
        liveLoops := 0;
        raised := true;
      } else {
        ghost var last := current;
        raised := ExitLoop(exitMembers, disconnectRaises);
        assert raised ==> connected && KeptConnection(env, popped) && current == last;
        if raised && popped >= 2 {
          assert !env(popped - 2).drops;
        }
      }
    }

    /** The `while` of `_player_loop()`: passes run while tracks are queued
        and someone besides the bot is in the channel; a lost client stops
        the loop at the next pass, and a track handed to a client still
        playing stops it with `raised`. */
    method PlayPasses(env: nat -> Round) returns (popped: nat, played: seq<Track>, raised: bool)
      requires Valid() && task == Running
      modifies this
      ensures Valid() && task == Running
      ensures popped <= |old(queue)| && queue == old(queue)[popped..]
      ensures forall k :: 0 <= k < popped ==> OthersCount(old(voice).Some?, botUser, env(k).members) > 0
      ensures raised <==> RaisedAtAttach(old(State()), env, popped)
      ensures popped < |old(queue)| ==>
        || OthersCount(old(voice).Some?, botUser, env(popped).members) == 0
        || !(old(voice).Some? && old(voice).value.connected)
        || ConnectedPasses(env, popped) < popped
        || raised
      ensures !(old(voice).Some? && old(voice).value.connected) ==> popped <= 1 && played == []
      ensures old(voice).Some? && old(voice).value.connected ==>
        && (forall k :: 0 <= k && k + 1 < ConnectedPasses(env, popped) ==> !env(k).drops)
        && played == PlayedUpTo(old(queue), env, if raised then popped - 1 else ConnectedPasses(env, popped))
      ensures voice.Some? <==> old(voice).Some?
      ensures voice.Some? ==> voice.value.channel == old(voice).value.channel
      ensures voice.Some? ==>
        voice.value.connected == (old(voice).value.connected && KeptConnection(env, if raised then popped - 1 else popped))
      ensures volume == old(volume) && lastNonzero == old(lastNonzero)
      ensures raised ==> current == Some(old(queue)[popped - 1]) && startedAt.None? && pcm == Some(volume)
      ensures !raised && old(voice).Some? && old(voice).value.connected && 0 < popped == ConnectedPasses(env, popped) ==>
        if env(popped - 1).attachFails then current.None?
        else current == Some(old(queue)[popped - 1]) && startedAt == Some(env(popped - 1).now)
    {
      ghost var s0 := State();
      popped, played, raised := 0, [], false;
      var stop := false;
      PassesBegin(s0, env, botUser);
      while queue != [] && !stop
        invariant Valid() && task == Running
        invariant volume == old(volume) && lastNonzero == old(lastNonzero)
        invariant stop || !raised
        invariant Account(s0, env, botUser, popped, played, raised, stop, State())
        decreases |queue| + (if stop then 0 else 1)
      {
        popped, played, raised, stop := AccountedPass(env, s0, popped, played);
      }
      PassesOverMeans(s0, env, botUser, popped, played, raised, stop, State());
    }

    /** One pass of the `while` in `_player_loop()`, preceded by the `skip()`
        that the round says lands first, keeping the loop's account of the
        passes made from the player state `s0`. */
    method AccountedPass(env: nat -> Round, ghost s0: PlayerState, popped: nat, played: seq<Track>)
      returns (popped': nat, played': seq<Track>, raised: bool, stop: bool)
      requires Valid() && task == Running && queue != []
      requires Account(s0, env, botUser, popped, played, false, false, State())
      modifies this
      ensures Valid() && task == Running
      ensures volume == old(volume) && lastNonzero == old(lastNonzero)
      ensures |queue| <= |old(queue)| && (stop || |queue| < |old(queue)|)
      ensures stop || !raised
      ensures Account(s0, env, botUser, popped', played', raised, stop, State())
    {
      ghost var before := State();
      if env(popped).skipped {
        Skip();
      }
      assert State() == AfterSkip(before, env(popped));
      var outcome := Pass(env(popped));
      played', raised := played, false;
      if outcome == ChannelEmptied {
        popped', stop := popped, true;
      } else if outcome == LostVoice {
        popped', stop := popped + 1, true;
      } else if outcome == AttachRaised {
        popped', raised, stop := popped + 1, true, true;
      } else {
        if outcome == Played {
          played' := played + [current.value];
        }
        popped', stop := popped + 1, false;
      }
      PassesNext(s0, env, popped, played, before, botUser, outcome, State(), popped', played', raised, stop);
    }

    /** The end of `_player_loop()`: a connected client in a channel with
        nobody else is disconnected. When that disconnect raises, the
        exception ends the task and the current track, start time and
        transformer keep their values; otherwise they are cleared. */
    method ExitLoop(exitMembers: seq<int>, disconnectRaises: bool) returns (raised: bool)
      requires Valid() && task == Running
      modifies this
      ensures Valid()
      ensures raised <==>
        old(voice).Some? && old(voice).value.connected && OthersCount(true, botUser, exitMembers) == 0 && disconnectRaises
      ensures raised ==> current == old(current) && startedAt == old(startedAt) && pcm == old(pcm)
      ensures !raised ==> current.None? && startedAt.None? && pcm.None?
      ensures task == Done && liveLoops == 0
      ensures voice.Some? <==> old(voice).Some?
      ensures voice.Some? ==> voice.value.channel == old(voice).value.channel
      ensures voice.Some? ==> (voice.value.connected <==>
        old(voice).value.connected && (OthersCount(true, botUser, exitMembers) > 0 || disconnectRaises))
      ensures queue == old(queue) && volume == old(volume) && lastNonzero == old(lastNonzero)
    {
      raised := false;
      if OthersCount(voice.Some?, botUser, exitMembers) == 0 && voice.Some? && voice.value.connected {
        if disconnectRaises {
          raised := true;
        } else {
          voice := Some(voice.value.(connected := false, playback := Silent));
        }
      }
      if !raised {
        current := None;
        startedAt := None;
        pcm := None;
      }
      task := Done;
      liveLoops := 0;
    }
  }

  /** A playback loop never runs a pass after the queue is exhausted, and
      the tracks it played are, in order, the popped tracks whose stream
      opened. */
  lemma {:induction false} PlayedOrder(q: seq<Track>, env: nat -> Round, n: nat)
    requires n <= |q|
    ensures forall i :: 0 <= i < n && !env(i).attachFails ==> q[i] in PlayedUpTo(q, env, n)
    ensures (forall i :: 0 <= i < n ==> !env(i).attachFails) ==> PlayedUpTo(q, env, n) == q[..n]
  {
    if n > 0 {
      PlayedOrder(q, env, n - 1);
      assert q[..n] == q[..n - 1] + [q[n - 1]];
    }
  }

  /** Where the passes of the playback loop stand between passes, after
      `popped` passes from the player state `s0` to the state `s`: a prefix
      of the queue is popped; with a client connected at the start, the
      played tracks are the popped ones whose stream opened, only the last
      pass may have lost the connection, the audio is as `AudioAt` says and
      no pass raised, and the last track whose stream opened is current;
      without one nothing has happened. */
  ghost predicate PassesSoFar(s0: PlayerState, env: nat -> Round, popped: nat, played: seq<Track>, s: PlayerState)
  {
    var q0 := s0.queue;
    var connected := s0.voice.Some? && s0.voice.value.connected;
    && popped <= |q0| && s.queue == q0[popped..]
    && (!connected ==> popped == 0 && played == [])
    && (connected ==> played == PlayedUpTo(q0, env, popped))
    && (connected ==> forall k :: 0 <= k && k + 1 < popped ==> !env(k).drops)
    && (s.voice.Some? <==> s0.voice.Some?)
    && (s.voice.Some? ==> s.voice.value.channel == s0.voice.value.channel)
    && (s.voice.Some? ==> s.voice.value.connected == (connected && KeptConnection(env, popped)))
    && (connected ==>
          Audio(s.voice.value.playback, s.stopSet) == AudioAt(Audio(s0.voice.value.playback, s0.stopSet), env, popped))
    && (connected ==> !AttachRaises(Audio(s0.voice.value.playback, s0.stopSet), env, popped))
    && (connected && popped > 0 ==>
          if env(popped - 1).attachFails then s.current.None?
          else s.current == Some(q0[popped - 1]) && s.startedAt == Some(env(popped - 1).now))
  }

  /** Where the passes stand once the loop is over: as `PassesSoFar`, except
      that the last pass may have found the client gone, in which case it
      popped a track without playing it, or may have raised handing its
      track to a client still playing, in which case that track is current
      with its transformer made. */
  ghost predicate PassesOver(s0: PlayerState, env: nat -> Round, popped: nat, played: seq<Track>, raised: bool,
                             s: PlayerState)
  {
    var q0 := s0.queue;
    var connected := s0.voice.Some? && s0.voice.value.connected;
    && popped <= |q0| && s.queue == q0[popped..]
    && (raised <==> RaisedAtAttach(s0, env, popped))
    && (!connected ==> popped <= 1 && played == [])
    && (connected ==> played == PlayedUpTo(q0, env, if raised then popped - 1 else ConnectedPasses(env, popped)))
    && (connected ==> forall k :: 0 <= k && k + 1 < ConnectedPasses(env, popped) ==> !env(k).drops)
    && (s.voice.Some? <==> s0.voice.Some?)
    && (s.voice.Some? ==> s.voice.value.channel == s0.voice.value.channel)
    && (s.voice.Some? ==>
          s.voice.value.connected == (connected && KeptConnection(env, if raised then popped - 1 else popped)))
    && (raised ==> s.current == Some(q0[popped - 1]) && s.startedAt.None? && s.pcm == Some(s.volume))
    && (connected && !raised && 0 < popped == ConnectedPasses(env, popped) ==>
          if env(popped - 1).attachFails then s.current.None?
          else s.current == Some(q0[popped - 1]) && s.startedAt == Some(env(popped - 1).now))
  }

  /** The loop's account after `popped` passes from the state `s0`, with
      `played` the tracks played so far and `s` the state reached: every
      pass ran with someone besides the bot in the channel; while the loop
      goes on the passes stand as `PassesSoFar` says, and once it has
      stopped as `PassesOver` says, for one of the reasons that stop it. */
  ghost predicate Account(s0: PlayerState, env: nat -> Round, botUser: Option<int>, popped: nat, played: seq<Track>,
                          raised: bool, stop: bool, s: PlayerState)
  {
    && (forall k :: 0 <= k < popped ==> OthersCount(s0.voice.Some?, botUser, env(k).members) > 0)
    && (!stop ==> !raised && PassesSoFar(s0, env, popped, played, s))
    && (stop ==> PassesOver(s0, env, popped, played, raised, s))
    && (stop && popped < |s0.queue| ==>
          || OthersCount(s0.voice.Some?, botUser, env(popped).members) == 0
          || !(s0.voice.Some? && s0.voice.value.connected)
          || ConnectedPasses(env, popped) < popped
          || raised)
  }

  /** Before any pass, nothing has happened. */
  lemma PassesBegin(s0: PlayerState, env: nat -> Round, botUser: Option<int>)
    ensures Account(s0, env, botUser, 0, [], false, false, s0)
  {
  }

  /** One more pass, from the state `s` after `popped` passes, keeps the
      loop's account: a pass that drops or plays its track is one pass
      further on (`popped'` passes, `played'` played), and the other outcomes
      stop the loop as `PassesOver` says; a pass runs only with someone
      besides the bot in the channel. */
  lemma PassesNext(s0: PlayerState, env: nat -> Round, popped: nat, played: seq<Track>, s: PlayerState,
                   botUser: Option<int>, o: PassOutcome, t: PlayerState,
                   popped': nat, played': seq<Track>, raised: bool, stop: bool)
    requires Account(s0, env, botUser, popped, played, false, false, s)
    requires s.queue != []
    requires (o, t) == Passed(AfterSkip(s, env(popped)), env(popped), botUser)
    requires popped' == if o == ChannelEmptied then popped else popped + 1
    requires played' == if o == Played then played + [s.queue[0]] else played
    requires raised == (o == AttachRaised) && stop == (o != Dropped && o != Played)
    ensures Account(s0, env, botUser, popped', played', raised, stop, t)
  {
    match o
    case ChannelEmptied => NextEmptied(s0, env, botUser, popped, played, s, t);
    case LostVoice => NextLost(s0, env, botUser, popped, played, s, t);
    case AttachRaised => NextRaised(s0, env, botUser, popped, played, s, t);
    case Dropped => NextDropped(s0, env, botUser, popped, played, s, t);
    case Played => NextPlayed(s0, env, botUser, popped, played, s, t);
  }

  /** A pass that finds nobody else in the channel stops the loop with the
      account as it stands. */
  lemma NextEmptied(s0: PlayerState, env: nat -> Round, botUser: Option<int>, popped: nat, played: seq<Track>,
                    s: PlayerState, t: PlayerState)
    requires Account(s0, env, botUser, popped, played, false, false, s) && s.queue != []
    requires Passed(AfterSkip(s, env(popped)), env(popped), botUser) == (ChannelEmptied, t)
    ensures Account(s0, env, botUser, popped, played, false, true, t)
  {
  }

  /** A pass that finds the client gone pops a track without playing it and
      stops the loop. */
  lemma NextLost(s0: PlayerState, env: nat -> Round, botUser: Option<int>, popped: nat, played: seq<Track>,
                 s: PlayerState, t: PlayerState)
    requires Account(s0, env, botUser, popped, played, false, false, s) && s.queue != []
    requires Passed(AfterSkip(s, env(popped)), env(popped), botUser) == (LostVoice, t)
    ensures Account(s0, env, botUser, popped + 1, played, false, true, t)
  {
    OthersBefore(s0, env, botUser, popped, s, t, LostVoice);
  }

  /** A pass whose `voice.play` raises stops the loop with its track current. */
  lemma NextRaised(s0: PlayerState, env: nat -> Round, botUser: Option<int>, popped: nat, played: seq<Track>,
                   s: PlayerState, t: PlayerState)
    requires Account(s0, env, botUser, popped, played, false, false, s) && s.queue != []
    requires Passed(AfterSkip(s, env(popped)), env(popped), botUser) == (AttachRaised, t)
    ensures Account(s0, env, botUser, popped + 1, played, true, true, t)
  {
    if popped > 0 {
      assert !env(popped - 1).drops;
    }
    OthersBefore(s0, env, botUser, popped, s, t, AttachRaised);
  }

  /** A pass whose stream cannot be opened drops its track and goes on. */
  lemma NextDropped(s0: PlayerState, env: nat -> Round, botUser: Option<int>, popped: nat, played: seq<Track>,
                    s: PlayerState, t: PlayerState)
    requires Account(s0, env, botUser, popped, played, false, false, s) && s.queue != []
    requires Passed(AfterSkip(s, env(popped)), env(popped), botUser) == (Dropped, t)
    ensures Account(s0, env, botUser, popped + 1, played, false, false, t)
  {
    OthersBefore(s0, env, botUser, popped, s, t, Dropped);
  }

  /** A pass that plays its track adds it to those played and goes on. */
  lemma NextPlayed(s0: PlayerState, env: nat -> Round, botUser: Option<int>, popped: nat, played: seq<Track>,
                   s: PlayerState, t: PlayerState)
    requires Account(s0, env, botUser, popped, played, false, false, s) && s.queue != []
    requires Passed(AfterSkip(s, env(popped)), env(popped), botUser) == (Played, t)
    ensures Account(s0, env, botUser, popped + 1, played + [s.queue[0]], false, false, t)
  {
    OthersBefore(s0, env, botUser, popped, s, t, Played);
  }

  /** A pass that went past the channel check extends the passes begun with
      someone besides the bot in the channel by one. */
  lemma OthersBefore(s0: PlayerState, env: nat -> Round, botUser: Option<int>, popped: nat, s: PlayerState,
                     t: PlayerState, o: PassOutcome)
    requires s.queue != [] && (s.voice.Some? <==> s0.voice.Some?)
    requires forall k :: 0 <= k < popped ==> OthersCount(s0.voice.Some?, botUser, env(k).members) > 0
    requires Passed(AfterSkip(s, env(popped)), env(popped), botUser) == (o, t) && o != ChannelEmptied
    ensures forall k :: 0 <= k < popped + 1 ==> OthersCount(s0.voice.Some?, botUser, env(k).members) > 0
  {
  }

  /** Between passes, the account is already the final one. */
  lemma PassesEnd(s0: PlayerState, env: nat -> Round, popped: nat, played: seq<Track>, s: PlayerState)
    requires PassesSoFar(s0, env, popped, played, s)
    ensures ConnectedPasses(env, popped) == popped || !(s0.voice.Some? && s0.voice.value.connected)
    ensures PassesOver(s0, env, popped, played, false, s)
  {
  }

  /** What the loop's account says once the loop is over, stopped or with
      the queue run out, in the terms of `PlayPasses`. */
  lemma PassesOverMeans(s0: PlayerState, env: nat -> Round, botUser: Option<int>, popped: nat, played: seq<Track>,
                        raised: bool, stop: bool, s: PlayerState)
    requires Account(s0, env, botUser, popped, played, raised, stop, s)
    requires stop || s.queue == []
    ensures popped <= |s0.queue| && s.queue == s0.queue[popped..]
    ensures forall k :: 0 <= k < popped ==> OthersCount(s0.voice.Some?, botUser, env(k).members) > 0
    ensures popped < |s0.queue| ==>
      || OthersCount(s0.voice.Some?, botUser, env(popped).members) == 0
      || !(s0.voice.Some? && s0.voice.value.connected)
      || ConnectedPasses(env, popped) < popped
      || raised
    ensures raised <==> RaisedAtAttach(s0, env, popped)
    ensures !(s0.voice.Some? && s0.voice.value.connected) ==> popped <= 1 && played == []
    ensures s0.voice.Some? && s0.voice.value.connected ==>
      && (forall k :: 0 <= k && k + 1 < ConnectedPasses(env, popped) ==> !env(k).drops)
      && played == PlayedUpTo(s0.queue, env, if raised then popped - 1 else ConnectedPasses(env, popped))
    ensures s.voice.Some? <==> s0.voice.Some?
    ensures s.voice.Some? ==> s.voice.value.channel == s0.voice.value.channel
    ensures s.voice.Some? ==>
      s.voice.value.connected == (s0.voice.value.connected && KeptConnection(env, if raised then popped - 1 else popped))
    ensures raised ==> s.current == Some(s0.queue[popped - 1]) && s.startedAt.None? && s.pcm == Some(s.volume)
    ensures !raised && s0.voice.Some? && s0.voice.value.connected && 0 < popped == ConnectedPasses(env, popped) ==>
      if env(popped - 1).attachFails then s.current.None?
      else s.current == Some(s0.queue[popped - 1]) && s.startedAt == Some(env(popped - 1).now)
  {
    if !stop {
      PassesEnd(s0, env, popped, played, s);
    }
  }

  /** The mute/unmute button of the volume view: unmutes at 0%, else mutes. */
  method MuteUnmute(p: GuildPlayer)
    requires p.Valid()
    modifies p
    ensures p.Valid()
    ensures old(p.volume) == 0 ==> p.volume == old(p.lastNonzero)
    ensures old(p.volume) > 0 ==> p.volume == 0 && p.lastNonzero == old(p.volume)
    ensures p.queue == old(p.queue) && p.current == old(p.current) && p.voice == old(p.voice)
  {
    if p.VolumePercent() == 0 {
      var _ := p.Unmute();
    } else {
      p.Mute();
    }
  }

  /** Pressing mute/unmute twice gives back the volume it started from, and
      muting then unmuting restores a positive volume exactly. */
  method MuteUnmuteTwice(p: GuildPlayer) returns (restored: int)
    requires p.Valid()
    modifies p
    ensures p.Valid()
    ensures p.volume == old(p.volume) && restored == old(p.volume)
  {
    MuteUnmute(p);
    MuteUnmute(p);
    restored := p.VolumePercent();
  }

  /** Pausing playing audio and resuming it leaves it playing again. */
  method PauseThenResume(p: GuildPlayer) returns (paused: bool, resumed: bool)
    requires p.Valid()
    modifies p
    ensures p.Valid()
    ensures paused <==> old(p.voice).Some? && old(p.voice).value.playback == Playing
    ensures paused ==> resumed && p.voice == old(p.voice)
  {
    paused := p.Pause();
    resumed := p.Resume();
  }

  /** What `remove` reports for an index outside `1..len(queue)`. */
  datatype RemoveError = InvalidIndex(queueLength: nat)

  /** The outcome of choosing an entry in the queue view's remove menu. */
  datatype SelectOutcome = Deferred | InvalidSelection | Removed(track: Track)

  /** `queue` without its `index`-th item (1-based), the rest in order. */
  function Without(q: seq<Track>, index: int): (r: seq<Track>)
    requires 1 <= index <= |q|
    ensures |r| == |q| - 1
    ensures forall i :: 0 <= i < index - 1 ==> r[i] == q[i]
    ensures forall i :: index - 1 <= i < |r| ==> r[i] == q[i + 1]
    ensures multiset(r) + multiset{q[index - 1]} == multiset(q)
  {
    assert q == q[..index - 1] + [q[index - 1]] + q[index..];
    q[..index - 1] + q[index..]
  }

  /** The `Music` cog: one player per guild id. */
  class MusicCog {
    const botUser: Option<int>
    /** `players`, created on first use and dropped by the voice listener. */
    var players: map<int, GuildPlayer>

    /** Every player is valid, and no two guilds share one. */
    ghost predicate Valid()
      reads this, players.Values
    {
      && (forall g :: g in players ==> players[g].Valid())
      && (forall g, h :: g in players && h in players && g != h ==> players[g] != players[h])
    }

    /** The fields of the guild's player, or of a fresh one when the guild
        has none yet. */
    ghost function PlayerOf(gid: int): PlayerState
      reads this, players.Values
    {
      if gid in players then players[gid].State() else FreshState
    }

    constructor (botUser: Option<int>)
      ensures Valid() && players == map[] && this.botUser == botUser
    {
      this.botUser := botUser;
      players := map[];
    }

    /** `get_player(guild)`: the guild's player, created fresh on first use. */
    method GetPlayer(gid: int) returns (p: GuildPlayer)
      requires Valid()
      modifies this
      ensures Valid()
      ensures gid in players && players[gid] == p
      ensures gid in old(players) ==> p == old(players[gid]) && players == old(players)
      ensures gid !in old(players) ==> fresh(p) && players == old(players)[gid := p]
      ensures gid !in old(players) ==> p.queue == [] && p.current.None? && p.voice.None?
      ensures p.State() == old(PlayerOf(gid))
    {
      if gid !in players {
        var created := new GuildPlayer(botUser);
        players := players[gid := created];
      }
      p := players[gid];
    }

    /** `on_voice_state_update`: a guild's player is torn down and forgotten
        only when it exists, its client is connected, the update's before or
        after channel is the client's channel, and nobody but the bot is left
        in it. If the disconnect raises, the player is torn down but stays. */
    method OnVoiceStateUpdate(gid: int, before: Option<int>, after: Option<int>, members: seq<int>,
                              disconnectRaises: bool) returns (tornDown: bool)
      requires Valid()
      modifies this, if gid in players then {players[gid]} else {}
      ensures Valid()
      ensures forall h :: h in old(players) && h != gid ==> h in players && players[h].State() == old(players[h].State())
      ensures tornDown <==>
        && gid in old(players)
        && old(players[gid].voice).Some? && old(players[gid].voice).value.connected
        && (before == Some(old(players[gid].voice).value.channel)
            || after == Some(old(players[gid].voice).value.channel))
        && OthersCount(old(players[gid].voice).Some?, old(players[gid].botUser), members) == 0
      ensures tornDown ==> old(players[gid]).queue == [] && old(players[gid]).current.None?
      ensures tornDown ==> old(players[gid]).State() == TornDown(old(players[gid].State()), disconnectRaises)
      ensures !tornDown && gid in old(players) ==> old(players)[gid].State() == old(players[gid].State())
      ensures players == if tornDown && !disconnectRaises then old(players) - {gid} else old(players)
    {
      if gid !in players {
        return false;
      }
      var p := players[gid];
      if p.voice.None? || !p.voice.value.connected {
        return false;
      }
      var ch := p.voice.value.channel;
      var affected := before == Some(ch) || after == Some(ch);
      if !affected {
        return false;
      }
      if p.OthersInChannel(members) == 0 {
        var raised := p.Teardown(disconnectRaises);
        tornDown := true;
        if !raised {
          players := players - {gid};
        }
      } else {
        tornDown := false;
      }
    }

    /** `remove(index)`: with `index` outside `1..len(queue)` the queue is
        left as it was; otherwise the `index`-th track is returned and the
        queue keeps the others in order. */
    method Remove(gid: int, index: int) returns (r: Result<Track, RemoveError>)
      requires Valid()
      modifies this, if gid in players then {players[gid]} else {}
      ensures Valid()
      ensures forall h :: h in old(players) && h != gid ==> h in players && players[h].State() == old(players[h].State())
      ensures gid in players
      ensures players == if gid in old(players) then old(players) else old(players)[gid := players[gid]]
      ensures var before := if gid in old(players) then old(players[gid].queue) else [];
        && (r.Failure? <==> index < 1 || index > |before|)
        && (r.Failure? ==> r == Failure(InvalidIndex(|before|)) && players[gid].queue == before)
        && (r.Success? ==> r.value == before[index - 1] && players[gid].queue == Without(before, index))
      ensures r.Failure? ==> players[gid].State() == old(PlayerOf(gid))
      ensures r.Success? ==> players[gid].State() == old(PlayerOf(gid)).(queue := players[gid].queue)
    {
      var p := GetPlayer(gid);
      var n := |p.queue|;
      if index < 1 || index > n {
        return Failure(InvalidIndex(n));
      }
      var track := p.queue[index - 1];
      p.queue := Without(p.queue, index);
      r := Success(track);
    }

    /** The `skip` command: nothing to skip without a current track;
        otherwise the player skips. */
    method SkipCommand(gid: int) returns (skipped: bool)
      requires Valid()
      modifies this, if gid in players then {players[gid]} else {}
      ensures Valid()
      ensures forall h :: h in old(players) && h != gid ==> h in players && players[h].State() == old(players[h].State())
      ensures gid in players
      ensures players == if gid in old(players) then old(players) else old(players)[gid := players[gid]]
      ensures skipped <==> gid in old(players) && old(players[gid].current).Some?
      ensures skipped ==> players[gid].stopSet
      ensures players[gid].queue == (if gid in old(players) then old(players[gid].queue) else [])
      ensures !skipped ==> players[gid].State() == old(PlayerOf(gid))
      ensures skipped ==> players[gid].State() == Skipped(old(PlayerOf(gid)))
      ensures skipped && players[gid].voice.Some? ==> players[gid].voice.value.playback != Playing
    {
      var p := GetPlayer(gid);
      if p.current.None? {
        return false;
      }
      p.Skip();
      skipped := true;
    }

    /** The `stop` command: the queue is cleared and the player skips. */
    method Stop(gid: int)
      requires Valid()
      modifies this, if gid in players then {players[gid]} else {}
      ensures Valid()
      ensures forall h :: h in old(players) && h != gid ==> h in players && players[h].State() == old(players[h].State())
      ensures gid in players
      ensures players == if gid in old(players) then old(players) else old(players)[gid := players[gid]]
      ensures players[gid].queue == [] && players[gid].stopSet
      ensures players[gid].voice.Some? ==> players[gid].voice.value.playback != Playing
      ensures players[gid].State() == Skipped(old(PlayerOf(gid)).(queue := []))
    {
      var p := GetPlayer(gid);
      p.queue := [];
      p.Skip();
    }
  }

  /** The queue view's removal menu and its page index. */
  class QueueView {
    const player: GuildPlayer
    const perPage: nat
    var page: int

    ghost predicate Valid()
      reads this, player
    {
      perPage > 0 && player.Valid()
    }

    constructor (player: GuildPlayer, perPage: nat)
      requires perPage > 0 && player.Valid()
      ensures Valid() && this.player == player && this.perPage == perPage && page == 0
    {
      this.player := player;
      this.perPage := perPage;
      page := 0;
    }

    /** `_on_remove_select`: a value that is not an integer is ignored; an
        index outside `1..len(queue)` is refused; otherwise that track is
        removed and the page index is pulled back to the last page. */
    method OnRemoveSelect(value: string) returns (outcome: SelectOutcome)
      requires Valid()
      modifies this, player
      ensures Valid()
      ensures ParseInt(value).None? ==> outcome == Deferred
      ensures ParseInt(value).Some? ==>
        var idx := ParseInt(value).value;
        && (outcome == InvalidSelection <==> idx < 1 || idx > |old(player.queue)|)
        && (outcome.Removed? <==> 1 <= idx <= |old(player.queue)|)
        && (outcome.Removed? ==>
              && outcome.track == old(player.queue)[idx - 1]
              && player.queue == Without(old(player.queue), idx)
              && page == (if old(page) < PageCount(|player.queue|, perPage) - 1
                          then old(page) else PageCount(|player.queue|, perPage) - 1))
      ensures !outcome.Removed? ==> player.queue == old(player.queue) && page == old(page)
      ensures outcome.Removed? ==> player.State() == old(player.State()).(queue := player.queue)
      ensures !outcome.Removed? ==> player.State() == old(player.State())
    {
      var parsed := ParseInt(value);
      if parsed.None? {
        return Deferred;
      }
      var idx := parsed.value;
      var n := |player.queue|;
      if idx < 1 || idx > n {
        return InvalidSelection;
      }
      var track := player.queue[idx - 1];
      player.queue := Without(player.queue, idx);
      var maxPage := (|player.queue| - 1) / perPage;
      if maxPage < 0 {
        maxPage := 0;
      }
      RemoveClampIsLastPage(|player.queue|, perPage);
      if maxPage < page {
        page := maxPage;
      }
      outcome := Removed(track);
    }
  }
}
