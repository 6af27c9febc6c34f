/** Personal voice rooms: members who join a guild's lobby channel are moved
    into a room of their own, created on demand and deleted some seconds after
    it empties. The cog keeps the per-guild settings (lobby, category, room
    defaults), which it saves as JSON and reads back on start, and the
    bookkeeping of the rooms it created. Discord is seen only through the
    answers it gives: whether a channel still exists, the id of a created
    channel, who is in a channel. */
module VoiceChannels {
  import opened Wrappers
  import opened Strings
  import opened Json

  /** `FALLBACK_USER_LIMIT`: no limit. */
  const FallbackUserLimit := 0
  /** `FALLBACK_DELETE_DELAY_SEC` */
  const FallbackDeleteDelay := 5
  /** Lowest bitrate `voice_setup` stores, in bits per second. */
  const MinBitrate := 8000
  /** Shortest deletion delay `voice_setup` stores, in seconds. */
  const MinDeleteDelay := 5

  const GuildsKey := "guilds"
  const LobbyKey := "lobby_channel_id"
  const CategoryKey := "category_id"
  const UserLimitKey := "user_limit"
  const BitrateKey := "bitrate_bps"
  const DeleteDelayKey := "delete_delay_sec"

  function Max(a: int, b: int): int { if a < b then b else a }

  /** A guild's entry of `_defaults`; `None` is a key the dict does not hold.
      The bitrate is kept as the raw JSON value read from the file. */
  datatype Defaults = Defaults(userLimit: Option<int>, bitrate: Option<Value>, deleteDelay: Option<int>)

  const NoDefaults := Defaults(None, None, None)

  /** The three settings maps that are saved to and loaded from the file:
      `_channels` (guild to lobby), `_categories` and `_defaults`. */
  datatype Saved = Saved(channels: map<int, int>, categories: map<int, int>, defaults: map<int, Defaults>)

  const NothingSaved := Saved(map[], map[], map[])

  /** `_g_user_limit(gid)` */
  function UserLimit(defaults: map<int, Defaults>, gid: int): (r: int)
    ensures gid !in defaults || defaults[gid].userLimit.None? ==> r == FallbackUserLimit
  {
    if gid in defaults then defaults[gid].userLimit.GetOr(FallbackUserLimit) else FallbackUserLimit
  }

  /** `self._defaults.get(gid, {}).get("bitrate_bps", None)` */
  function RawBitrate(defaults: map<int, Defaults>, gid: int): Value {
    if gid in defaults then defaults[gid].bitrate.GetOr(Null) else Null
  }

  /** `_g_bitrate_bps(gid)`: the stored value when it is an `int` (Python
      counts `True` and `False` as ints), otherwise `None`. */
  function BitrateBps(defaults: map<int, Defaults>, gid: int): (r: Option<int>)
    ensures r.Some? <==> RawBitrate(defaults, gid).Int? || RawBitrate(defaults, gid).Bool?
    ensures gid !in defaults || defaults[gid].bitrate.None? ==> r == None
    ensures r.Some? ==> ToInt(RawBitrate(defaults, gid)) == r
  {
    match RawBitrate(defaults, gid)
    case Int(i) => Some(i)
    case Bool(b) => Some(if b then 1 else 0)
    case _ => None
  }

  /** `_g_delete_delay(gid)` */
  function DeleteDelay(defaults: map<int, Defaults>, gid: int): (r: int)
    ensures gid !in defaults || defaults[gid].deleteDelay.None? ==> r == FallbackDeleteDelay
  {
    if gid in defaults then defaults[gid].deleteDelay.GetOr(FallbackDeleteDelay) else FallbackDeleteDelay
  }

  // ---------------------------------------------------------------------------
  // Saving: `_config_snapshot`
  // ---------------------------------------------------------------------------

  /** Every guild that has a lobby, a category or defaults. */
  function Guilds(s: Saved): set<int> {
    s.channels.Keys + s.categories.Keys + s.defaults.Keys
  }

  /** `m.get(gid)` for an id map. */
  function IdOrNull(m: map<int, int>, gid: int): Value {
    if gid in m then Int(m[gid]) else Null
  }

  /** The saved entry of one guild. */
  function Entry(s: Saved, gid: int): Value {
    Object(map[
      LobbyKey := IdOrNull(s.channels, gid),
      CategoryKey := IdOrNull(s.categories, gid),
      UserLimitKey := Int(UserLimit(s.defaults, gid)),
      BitrateKey := RawBitrate(s.defaults, gid),
      DeleteDelayKey := Int(DeleteDelay(s.defaults, gid))])
  }

  /** The `"guilds"` object, keyed by `str(gid)`. */
  function GuildEntries(s: Saved): map<string, Value> {
    IntToStringInjective();
    map gid | gid in Guilds(s) :: IntToString(gid) := Entry(s, gid)
  }

  /** `_config_snapshot()`: a single `"guilds"` object with one entry per
      guild that has a lobby, a category or defaults, under the decimal form
      of its id, holding that guild's lobby, category and looked-up
      defaults. */
  function Snapshot(s: Saved): (r: Value)
    ensures r.Object? && r.fields.Keys == {GuildsKey} && r.fields[GuildsKey] == Object(GuildEntries(s))
    ensures forall gid :: IntToString(gid) in GuildEntries(s) <==> gid in Guilds(s)
    ensures forall k :: k in GuildEntries(s) ==>
      && ParseInt(k).Some?
      && ParseInt(k).value in Guilds(s)
      && k == IntToString(ParseInt(k).value)
      && GuildEntries(s)[k] == Entry(s, ParseInt(k).value)
  {
    var entries := GuildEntries(s);
    SnapshotCovers(s);
    Object(map[GuildsKey := Object(entries)])
  }

  /** The snapshot has exactly one entry per guild of the union of the three
      maps, under a key that reads back as that guild's id. */
  lemma SnapshotCovers(s: Saved)
    ensures forall gid :: IntToString(gid) in GuildEntries(s) <==> gid in Guilds(s)
    ensures forall k :: k in GuildEntries(s) ==>
      && ParseInt(k).Some?
      && ParseInt(k).value in Guilds(s)
      && k == IntToString(ParseInt(k).value)
      && GuildEntries(s)[k] == Entry(s, ParseInt(k).value)
  {
    forall gid | IntToString(gid) in GuildEntries(s)
      ensures gid in Guilds(s)
    {
      EntryOfKey(s, IntToString(gid));
      IntToStringRoundTrip(gid);
    }
    forall k | k in GuildEntries(s)
      ensures && ParseInt(k).Some?
              && ParseInt(k).value in Guilds(s)
              && k == IntToString(ParseInt(k).value)
              && GuildEntries(s)[k] == Entry(s, ParseInt(k).value)
    {
      EntryOfKey(s, k);
    }
  }

  /** A key of the snapshot reads back as a guild that has an entry. */
  lemma EntryOfKey(s: Saved, k: string)
    requires k in GuildEntries(s)
    ensures ParseInt(k).Some? && ParseInt(k).value in Guilds(s) && k == IntToString(ParseInt(k).value)
    ensures GuildEntries(s)[k] == Entry(s, ParseInt(k).value)
  {
    var gid :| gid in Guilds(s) && IntToString(gid) == k;
    IntToStringRoundTrip(gid);
    IntToStringInjective();
  }

  // ---------------------------------------------------------------------------
  // Loading: `_load_config`
  // ---------------------------------------------------------------------------

  /** The config file: absent, or its text with what `json.loads` made of
      the stripped text (`None` where it raised). */
  datatype ConfigFile = Missing | Stored(raw: string, decoded: Option<Value>)

  /** The exceptions `_load_config` lets escape: `.get`/`.items()` on a value
      that is not a dict, and `int(...)` on a value that is not a number. */
  datatype LoadError =
    | DataNotMapping
    | GuildsNotMapping
    | EntryNotMapping(sgid: string)
    | NotAnInt(sgid: string, key: string)

  /** The data the loader goes on with; `None` when it gives up quietly on a
      missing, blank or undecodable file. */
  function Decoded(file: ConfigFile): Option<Value> {
    match file
    case Missing => None
    case Stored(raw, decoded) => if Strip(raw) == [] then None else decoded
  }

  /** `data.get("guilds", {})` when it is a dict whose items can be walked. */
  function GuildsIn(data: Value): Option<map<string, Value>> {
    if !data.Object? then None
    else
      var guilds := GetDefault(data.fields, GuildsKey, Object(map[]));
      if guilds.Object? then Some(guilds.fields) else None
  }

  /** `order` is the dict's iteration order: each key exactly once. */
  ghost predicate IsKeyOrder(order: seq<string>, m: map<string, Value>) {
    && (forall k :: k in order <==> k in m)
    && (forall i, j :: 0 <= i < j < |order| ==> order[i] != order[j])
  }

  /** One turn of the guild loop. A key that `int()` refuses is skipped;
      otherwise a truthy lobby and category are stored, and the guild's
      defaults are replaced by the entry's (fallbacks for missing keys). */
  function LoadEntry(p: Saved, sgid: string, cfg: Value): (r: Result<Saved, LoadError>)
    ensures ParseInt(sgid).None? ==> r == Success(p)
    ensures r.Success? && ParseInt(sgid).Some? ==>
      var gid := ParseInt(sgid).value;
      && gid in r.value.defaults
      && r.value.defaults[gid].userLimit.Some? && r.value.defaults[gid].deleteDelay.Some?
      && cfg.Object?
      && r.value.defaults[gid].bitrate == Some(Get(cfg.fields, BitrateKey))
      && (forall h :: h != gid ==> (h in r.value.channels <==> h in p.channels))
      && (forall h :: h != gid && h in p.channels ==> r.value.channels[h] == p.channels[h])
      && r.value.defaults == p.defaults[gid := r.value.defaults[gid]]
    ensures r.Success? && ParseInt(sgid).Some? && cfg.Object? ==>
      var gid := ParseInt(sgid).value;
      var lobby := Get(cfg.fields, LobbyKey);
      var cat := Get(cfg.fields, CategoryKey);
      && (Truthy(lobby) ==> gid in r.value.channels && ToInt(lobby) == Some(r.value.channels[gid]))
      && (!Truthy(lobby) ==> r.value.channels == p.channels)
      && (Truthy(cat) ==> gid in r.value.categories && ToInt(cat) == Some(r.value.categories[gid]))
      && (!Truthy(cat) ==> r.value.categories == p.categories)
      && (forall h :: h != gid ==> (h in r.value.categories <==> h in p.categories))
      && (forall h :: h != gid && h in p.categories ==> r.value.categories[h] == p.categories[h])
      && r.value.defaults[gid].userLimit == ToInt(GetDefault(cfg.fields, UserLimitKey, Int(FallbackUserLimit)))
      && r.value.defaults[gid].deleteDelay == ToInt(GetDefault(cfg.fields, DeleteDelayKey, Int(FallbackDeleteDelay)))
    ensures r.Failure? <==>
      && ParseInt(sgid).Some?
      && (|| !cfg.Object?
          || (Truthy(Get(cfg.fields, LobbyKey)) && ToInt(Get(cfg.fields, LobbyKey)).None?)
          || (Truthy(Get(cfg.fields, CategoryKey)) && ToInt(Get(cfg.fields, CategoryKey)).None?)
          || ToInt(GetDefault(cfg.fields, UserLimitKey, Int(FallbackUserLimit))).None?
          || ToInt(GetDefault(cfg.fields, DeleteDelayKey, Int(FallbackDeleteDelay))).None?)
    ensures r.Success? ==> Grows(p, r.value)
  {
    match ParseInt(sgid)
    case None => Success(p)
    case Some(gid) =>
      if !cfg.Object? then Failure(EntryNotMapping(sgid))
      else
        var lobby := Get(cfg.fields, LobbyKey);
        var cat := Get(cfg.fields, CategoryKey);
        if Truthy(lobby) && ToInt(lobby).None? then Failure(NotAnInt(sgid, LobbyKey))
        else if Truthy(cat) && ToInt(cat).None? then Failure(NotAnInt(sgid, CategoryKey))
        else
          var limit := ToInt(GetDefault(cfg.fields, UserLimitKey, Int(FallbackUserLimit)));
          var delay := ToInt(GetDefault(cfg.fields, DeleteDelayKey, Int(FallbackDeleteDelay)));
          if limit.None? then Failure(NotAnInt(sgid, UserLimitKey))
          else if delay.None? then Failure(NotAnInt(sgid, DeleteDelayKey))
          else
            Success(Saved(
              if Truthy(lobby) then p.channels[gid := ToInt(lobby).value] else p.channels,
              if Truthy(cat) then p.categories[gid := ToInt(cat).value] else p.categories,
              p.defaults[gid := Defaults(Some(limit.value), Some(Get(cfg.fields, BitrateKey)), Some(delay.value))]))
  }

  /** Loading only adds: every lobby, category and defaults entry already
      known stays known. */
  predicate Grows(p: Saved, q: Saved) {
    && p.channels.Keys <= q.channels.Keys
    && p.categories.Keys <= q.categories.Keys
    && p.defaults.Keys <= q.defaults.Keys
  }

  /** Every key of `order` that `int()` accepts names a guild with
      defaults in `q`. */
  predicate DefaultsFor(q: Saved, order: seq<string>) {
    forall k :: k in order && ParseInt(k).Some? ==> ParseInt(k).value in q.defaults
  }

  /** The guild loop over `order`, stopping at the first exception. */
  function LoadGuilds(p: Saved, guilds: map<string, Value>, order: seq<string>): (r: Result<Saved, LoadError>)
    requires forall k :: k in order ==> k in guilds
    ensures order == [] ==> r == Success(p)
    ensures r.Success? ==> Grows(p, r.value) && DefaultsFor(r.value, order)
    decreases |order|
  {
    if order == [] then Success(p)
    else
      match LoadEntry(p, order[0], guilds[order[0]])
      case Failure(e) => Failure(e)
      case Success(q) =>
        var r := LoadGuilds(q, guilds, order[1..]);
        assert r.Success? ==> forall k :: k in order ==> k == order[0] || k in order[1..];
        r
  }

  /** `_load_config` from the decoded data on. */
  function LoadData(p: Saved, data: Value, order: seq<string>): (r: Result<Saved, LoadError>)
    requires GuildsIn(data).Some? ==> forall k :: k in order ==> k in GuildsIn(data).value
    ensures !data.Object? ==> r == Failure(DataNotMapping)
    ensures data.Object? && GuildsIn(data).None? ==> r == Failure(GuildsNotMapping)
    ensures r.Success? ==> Grows(p, r.value) && DefaultsFor(r.value, order)
  {
    if !data.Object? then Failure(DataNotMapping)
    else if GuildsIn(data).None? then Failure(GuildsNotMapping)
    else LoadGuilds(p, GuildsIn(data).value, order)
  }

  /** `_load_config()` */
  function Load(p: Saved, file: ConfigFile, order: seq<string>): (r: Result<Saved, LoadError>)
    requires Decoded(file).Some? && GuildsIn(Decoded(file).value).Some? ==>
      forall k :: k in order ==> k in GuildsIn(Decoded(file).value).value
    ensures file.Missing? || (file.Stored? && Strip(file.raw) == []) ==> r == Success(p)
    ensures r.Success? ==> Grows(p, r.value)
    ensures r.Success? && Decoded(file).Some? ==> DefaultsFor(r.value, order)
  {
    match Decoded(file)
    case None => Success(p)
    case Some(data) => LoadData(p, data, order)
  }

  /** A guild's defaults as read back from its snapshot entry. */
  function Restore(s: Saved, gid: int): Defaults {
    Defaults(Some(UserLimit(s.defaults, gid)), Some(RawBitrate(s.defaults, gid)), Some(DeleteDelay(s.defaults, gid)))
  }

  /** `q` holds what reading back the snapshot entries of the guilds in
      `done` gives: their lobbies and categories, and their defaults as the
      snapshot wrote them out. */
  ghost predicate RestoredOn(q: Saved, s: Saved, done: set<int>) {
    forall g :: RestoredAt(q, s, done, g)
  }

  /** What `RestoredOn` says about one guild id. */
  ghost predicate RestoredAt(q: Saved, s: Saved, done: set<int>, g: int) {
    && (g in q.channels <==> g in s.channels && g in done)
    && (g in q.channels ==> q.channels[g] == s.channels[g])
    && (g in q.categories <==> g in s.categories && g in done)
    && (g in q.categories ==> q.categories[g] == s.categories[g])
    && (g in q.defaults <==> g in Guilds(s) && g in done)
    && (g in q.defaults ==> q.defaults[g] == Restore(s, g))
  }

  /** Ids that are not zero: zero is falsy, and the loader drops it. */
  predicate NonZeroIds(s: Saved) {
    && (forall g :: g in s.channels ==> s.channels[g] != 0)
    && (forall g :: g in s.categories ==> s.categories[g] != 0)
  }

  /** `q` after reading back the snapshot entry of `gid`. */
  function ReadBack(q: Saved, s: Saved, gid: int): Saved {
    Saved(
      if gid in s.channels then q.channels[gid := s.channels[gid]] else q.channels,
      if gid in s.categories then q.categories[gid := s.categories[gid]] else q.categories,
      q.defaults[gid := Restore(s, gid)])
  }

  /** The loader accepts a snapshot entry and stores what it says. */
  lemma LoadEntryReadsBack(q: Saved, s: Saved, gid: int)
    requires NonZeroIds(s)
    ensures LoadEntry(q, IntToString(gid), Entry(s, gid)) == Success(ReadBack(q, s, gid))
  {
    IntToStringRoundTrip(gid);
    EntryFields(s, gid);
  }

  /** The fields of a snapshot entry, as the loader looks them up. */
  lemma EntryFields(s: Saved, gid: int)
    ensures Entry(s, gid).Object?
    ensures var cfg := Entry(s, gid).fields;
      && Get(cfg, LobbyKey) == IdOrNull(s.channels, gid)
      && Get(cfg, CategoryKey) == IdOrNull(s.categories, gid)
      && GetDefault(cfg, UserLimitKey, Int(FallbackUserLimit)) == Int(UserLimit(s.defaults, gid))
      && GetDefault(cfg, DeleteDelayKey, Int(FallbackDeleteDelay)) == Int(DeleteDelay(s.defaults, gid))
      && Get(cfg, BitrateKey) == RawBitrate(s.defaults, gid)
  {
  }

  /** Reading back one more guild extends what is restored by that guild. */
  lemma ReadBackRestores(q: Saved, s: Saved, done: set<int>, gid: int)
    requires RestoredOn(q, s, done) && gid in Guilds(s)
    ensures RestoredOn(ReadBack(q, s, gid), s, done + {gid})
  {
    forall g
      ensures RestoredAt(ReadBack(q, s, gid), s, done + {gid}, g)
    {
      assert RestoredAt(q, s, done, g);
    }
  }

  /** The guilds whose keys appear in `order`. */
  ghost function GidsOf(order: seq<string>): set<int> {
    set k | k in order && ParseInt(k).Some? :: ParseInt(k).value
  }

  lemma GidsOfCons(order: seq<string>, gid: int)
    requires order != [] && ParseInt(order[0]) == Some(gid)
    ensures GidsOf(order) == {gid} + GidsOf(order[1..])
  {
    assert forall k :: k in order <==> k == order[0] || k in order[1..];
  }

  /** The guild loop takes its first step. */
  lemma LoadGuildsStep(q: Saved, guilds: map<string, Value>, order: seq<string>)
    requires order != [] && forall k :: k in order ==> k in guilds
    requires LoadEntry(q, order[0], guilds[order[0]]).Success?
    ensures LoadGuilds(q, guilds, order) == LoadGuilds(LoadEntry(q, order[0], guilds[order[0]]).value, guilds, order[1..])
  {
  }

  /** The guild loop over a snapshot reads back its first guild. */
  lemma LoadGuildsSnapshotStep(q: Saved, s: Saved, done: set<int>, order: seq<string>) returns (gid: int)
    requires NonZeroIds(s)
    requires order != [] && forall k :: k in order ==> k in GuildEntries(s)
    ensures gid in Guilds(s)
    ensures LoadGuilds(q, GuildEntries(s), order) == LoadGuilds(ReadBack(q, s, gid), GuildEntries(s), order[1..])
    ensures done + GidsOf(order) == (done + {gid}) + GidsOf(order[1..])
  {
    var k := order[0];
    EntryOfKey(s, k);
    gid := ParseInt(k).value;
    LoadEntryReadsBack(q, s, gid);
    LoadGuildsStep(q, GuildEntries(s), order);
    GidsOfCons(order, gid);
  }

  lemma {:induction false} LoadGuildsRestores(q: Saved, s: Saved, done: set<int>, order: seq<string>)
    requires NonZeroIds(s) && RestoredOn(q, s, done)
    requires forall k :: k in order ==> k in GuildEntries(s)
    ensures var r := LoadGuilds(q, GuildEntries(s), order);
      r.Success? && RestoredOn(r.value, s, done + GidsOf(order))
    decreases |order|
  {
    if order != [] {
      var gid := LoadGuildsSnapshotStep(q, s, done, order);
      ReadBackRestores(q, s, done, gid);
      LoadGuildsRestores(ReadBack(q, s, gid), s, done + {gid}, order[1..]);
    } else {
      assert done + GidsOf(order) == done;
    }
  }

  /** Every guild of the snapshot is read when all its keys are walked. */
  lemma AllGuildsRead(s: Saved, order: seq<string>)
    requires forall k :: k in GuildEntries(s) ==> k in order
    ensures Guilds(s) <= GidsOf(order)
  {
    forall g | g in Guilds(s)
      ensures g in GidsOf(order)
    {
      IntToStringRoundTrip(g);
      assert IntToString(g) in GuildEntries(s);
      assert IntToString(g) in order;
    }
  }

  /** Once every guild is restored, the maps and the lookups agree. */
  lemma RestoredAll(q: Saved, s: Saved, done: set<int>)
    requires RestoredOn(q, s, done) && Guilds(s) <= done
    ensures q.channels == s.channels && q.categories == s.categories
    ensures forall gid :: UserLimit(q.defaults, gid) == UserLimit(s.defaults, gid)
    ensures forall gid :: BitrateBps(q.defaults, gid) == BitrateBps(s.defaults, gid)
    ensures forall gid :: DeleteDelay(q.defaults, gid) == DeleteDelay(s.defaults, gid)
  {
    forall g
      ensures g in q.channels <==> g in s.channels
      ensures g in q.categories <==> g in s.categories
      ensures g in q.channels ==> q.channels[g] == s.channels[g]
      ensures g in q.categories ==> q.categories[g] == s.categories[g]
    {
      assert RestoredAt(q, s, done, g);
      if g in s.channels || g in s.categories {
        assert g in Guilds(s);
      }
    }
    assert forall g :: g in q.channels ==> q.channels[g] == s.channels[g];
    assert forall g :: g in q.categories ==> q.categories[g] == s.categories[g];
    assert q.channels == s.channels;
    assert q.categories == s.categories;
    forall gid
      ensures UserLimit(q.defaults, gid) == UserLimit(s.defaults, gid)
      ensures BitrateBps(q.defaults, gid) == BitrateBps(s.defaults, gid)
      ensures DeleteDelay(q.defaults, gid) == DeleteDelay(s.defaults, gid)
    {
      assert RestoredAt(q, s, done, gid);
      if gid in q.defaults {
        assert q.defaults[gid] == Restore(s, gid);
      } else {
        assert gid !in Guilds(s);
      }
    }
  }

  /** The loader walks the snapshot's guild object. */
  lemma SnapshotLoads(s: Saved, order: seq<string>)
    requires forall k :: k in order ==> k in GuildEntries(s)
    ensures GuildsIn(Snapshot(s)) == Some(GuildEntries(s))
    ensures LoadData(NothingSaved, Snapshot(s), order) == LoadGuilds(NothingSaved, GuildEntries(s), order)
  {
  }

  /** Loading a snapshot into a fresh cog restores every guild it walks. */
  lemma SnapshotRestores(s: Saved, order: seq<string>) returns (q: Saved)
    requires NonZeroIds(s)
    requires forall k :: k in order ==> k in GuildEntries(s)
    ensures LoadData(NothingSaved, Snapshot(s), order) == Success(q)
    ensures RestoredOn(q, s, GidsOf(order))
  {
    SnapshotLoads(s, order);
    assert RestoredOn(NothingSaved, s, {}) by {
      forall g
        ensures RestoredAt(NothingSaved, s, {}, g)
      {
      }
    }
    LoadGuildsRestores(NothingSaved, s, {}, order);
    assert {} + GidsOf(order) == GidsOf(order);
    q := LoadGuilds(NothingSaved, GuildEntries(s), order).value;
  }

  /** Loading a snapshot into a fresh cog gives back the lobby and category
      maps and the same answer from every `_g_*` lookup, whatever the order
      of the guild keys, provided no stored id is zero. */
  lemma SnapshotRoundTrip(s: Saved, order: seq<string>)
    requires NonZeroIds(s)
    requires IsKeyOrder(order, GuildEntries(s))
    ensures var r := LoadData(NothingSaved, Snapshot(s), order);
      && r.Success?
      && r.value.channels == s.channels
      && r.value.categories == s.categories
      && (forall gid :: UserLimit(r.value.defaults, gid) == UserLimit(s.defaults, gid))
      && (forall gid :: BitrateBps(r.value.defaults, gid) == BitrateBps(s.defaults, gid))
      && (forall gid :: DeleteDelay(r.value.defaults, gid) == DeleteDelay(s.defaults, gid))
  {
    var q := SnapshotRestores(s, order);
    AllGuildsRead(s, order);
    RestoredAll(q, s, GidsOf(order));
  }

  // ---------------------------------------------------------------------------
  // Room creation: bitrate and category
  // ---------------------------------------------------------------------------

  /** The bitrate of a new room: the configured bitrate, or the lobby's when
      none is configured, capped at the guild's limit. */
  function ChooseBitrate(configured: Option<int>, lobbyBitrate: int, limit: int): (r: int)
    ensures r <= limit && r <= configured.GetOr(lobbyBitrate)
    ensures r == limit || r == configured.GetOr(lobbyBitrate)
  {
    var desired := if configured.Some? then configured.value else lobbyBitrate;
    if desired < limit then desired else limit
  }

  /** What Discord answers while a member is being placed: whether the
      owner's remembered room still resolves to a voice channel, whether the
      saved category resolves to a category, the lobby's own category and
      bitrate, the guild's bitrate limit, and the id of a created channel. */
  datatype GuildView = GuildView(
    roomIsVoice: bool,
    categoryIsCategory: bool,
    lobbyCategory: Option<int>,
    lobbyBitrate: int,
    bitrateLimit: int,
    createdId: int)

  /** The settings a room is created with. */
  datatype Room = Room(id: int, category: Option<int>, userLimit: int, bitrate: int)

  /** `category or lobby.category`, where `category` is the saved category
      when its id is set and resolves to a category channel. */
  function RoomCategory(categories: map<int, int>, gid: int, view: GuildView): (r: Option<int>)
    ensures gid in categories && categories[gid] != 0 && view.categoryIsCategory ==> r == Some(categories[gid])
    ensures !(gid in categories && categories[gid] != 0 && view.categoryIsCategory) ==> r == view.lobbyCategory
  {
    if gid in categories && categories[gid] != 0 && view.categoryIsCategory then Some(categories[gid])
    else view.lobbyCategory
  }

  /** A scheduled `_cleanup()` task: still sleeping out its delay, or
      finished without having been cancelled. */
  datatype Task = Sleeping(delay: int) | Finished

  /** The room `_move_to_existing_or_create` puts the member in: their
      recorded room when it is set and still a voice channel, else the room
      created for them. */
  function PlacedRoom(owners: map<(int, int), int>, gid: int, user: int, view: GuildView): (r: int)
    ensures (gid, user) in owners && owners[(gid, user)] != 0 && view.roomIsVoice ==> r == owners[(gid, user)]
    ensures !((gid, user) in owners && owners[(gid, user)] != 0 && view.roomIsVoice) ==> r == view.createdId
  {
    var key := (gid, user);
    if key in owners && owners[key] != 0 && view.roomIsVoice then owners[key] else view.createdId
  }

  /** The tracked rooms after `_move_to_existing_or_create`: the room created
      for the member is added, and a recorded room that has vanished is
      dropped; no other room is touched. */
  function PlacedRooms(rooms: set<int>, owners: map<(int, int), int>, gid: int, user: int, view: GuildView): (r: set<int>)
    ensures r <= rooms + {view.createdId}
    ensures forall c :: c in rooms && !((gid, user) in owners && c == owners[(gid, user)]) ==> c in r
    ensures !((gid, user) in owners && owners[(gid, user)] != 0 && view.roomIsVoice) ==> view.createdId in r
  {
    var key := (gid, user);
    if key in owners && owners[key] != 0 then
      if view.roomIsVoice then rooms else rooms - {owners[key]} + {view.createdId}
    else rooms + {view.createdId}
  }

  /** The owner map without the entries that point at `channel`. */
  function WithoutRoom(owners: map<(int, int), int>, channel: int): (r: map<(int, int), int>)
    ensures forall k :: k in r <==> k in owners && owners[k] != channel
    ensures forall k :: k in r ==> r[k] == owners[k]
  {
    owners - set k | k in owners && owners[k] == channel
  }

  /** The deletion tasks after `_maybe_schedule_cleanup` looks at `channel`:
      unchanged for a room the cog does not track, without the room's task
      when it is occupied, and otherwise with a task sleeping for `delay`
      unless one is already there. */
  function Scheduled(tasks: map<int, Task>, temp: set<int>, channel: int, occupied: bool, delay: int): (r: map<int, Task>)
    ensures forall c :: c != channel ==> (c in r <==> c in tasks) && (c in r ==> r[c] == tasks[c])
    ensures channel in r <==> if channel in temp then !occupied else channel in tasks
    ensures channel in r && channel in tasks ==> r[channel] == tasks[channel]
    ensures channel in r && channel !in tasks ==> r[channel] == Sleeping(delay)
  {
    if channel !in temp then tasks
    else if occupied then tasks - {channel}
    else if channel in tasks then tasks
    else tasks[channel := Sleeping(delay)]
  }

  class VoiceCog {
    /** `_channels`: guild id to lobby channel id. */
    var channels: map<int, int>
    /** `_categories`: guild id to the category rooms are created under. */
    var categories: map<int, int>
    /** `_defaults`: per-guild room defaults. */
    var defaults: map<int, Defaults>
    /** `_temp_channels`: the rooms this cog created and still tracks. */
    var tempChannels: set<int>
    /** `_cleanup_tasks`: channel id to its deletion task. */
    var cleanupTasks: map<int, Task>
    /** `_owner_room`: (guild id, member id) to that member's room. */
    var ownerRoom: map<(int, int), int>

    /** The persisted part of the state. */
    function Persisted(): Saved
      reads this
    {
      Saved(channels, categories, defaults)
    }

    /** Every owner's room is tracked, and no two owners share a room. */
    ghost predicate Valid()
      reads this
    {
      && (forall k :: k in ownerRoom ==> ownerRoom[k] in tempChannels)
      && (forall k1, k2 :: k1 in ownerRoom && k2 in ownerRoom && ownerRoom[k1] == ownerRoom[k2] ==> k1 == k2)
    }

    /** Every pending deletion is for a tracked room and is still asleep.
        The corrected cleanup keeps this; the cleanup as written does not. */
    ghost predicate TasksValid()
      reads this
    {
      forall c :: c in cleanupTasks ==> c in tempChannels && cleanupTasks[c].Sleeping?
    }

    /** The runtime state before `_load_config()`. */
    constructor ()
      ensures Valid() && TasksValid()
      ensures Persisted() == NothingSaved
      ensures tempChannels == {} && cleanupTasks == map[] && ownerRoom == map[]
    {
      channels := map[];
      categories := map[];
      defaults := map[];
      tempChannels := {};
      cleanupTasks := map[];
      ownerRoom := map[];
    }

    /** `_load_config()`: a missing, blank or undecodable file changes
        nothing; otherwise the guilds are read in the file's order, skipping
        keys that are not integers. `err` is the exception that escapes. */
    method LoadConfig(file: ConfigFile, order: seq<string>) returns (err: Option<LoadError>)
      requires Decoded(file).Some? && GuildsIn(Decoded(file).value).Some? ==>
        IsKeyOrder(order, GuildsIn(Decoded(file).value).value)
      modifies this
      ensures err.None? <==> Load(old(Persisted()), file, order).Success?
      ensures err.None? ==> Persisted() == Load(old(Persisted()), file, order).value
      ensures err.Some? ==> Load(old(Persisted()), file, order) == Failure(err.value)
      ensures Decoded(file).None? ==> err.None? && Persisted() == old(Persisted())
      ensures tempChannels == old(tempChannels) && cleanupTasks == old(cleanupTasks) && ownerRoom == old(ownerRoom)
    {
      if file.Missing? {
        return None;
      }
      if Strip(file.raw) == [] {
        return None;
      }
      if file.decoded.None? {
        return None;
      }
      var data := file.decoded.value;
      if !data.Object? {
        return Some(DataNotMapping);
      }
      var guilds := GetDefault(data.fields, GuildsKey, Object(map[]));
      if !guilds.Object? {
        return Some(GuildsNotMapping);
      }
      ghost var p0 := Persisted();
      var i := 0;
      while i < |order|
        invariant 0 <= i <= |order|
        invariant LoadGuilds(p0, guilds.fields, order) == LoadGuilds(Persisted(), guilds.fields, order[i..])
        invariant tempChannels == old(tempChannels) && cleanupTasks == old(cleanupTasks) && ownerRoom == old(ownerRoom)
      {
        assert order[i..][1..] == order[i + 1..];
        var failed := LoadGuild(order[i], guilds.fields[order[i]]);
        if failed.Some? {
          return failed;
        }
        i := i + 1;
      }
      return None;
    }

    /** One turn of the guild loop of `_load_config`. */
    method LoadGuild(sgid: string, cfg: Value) returns (err: Option<LoadError>)
      modifies this
      ensures err.None? <==> LoadEntry(old(Persisted()), sgid, cfg).Success?
      ensures err.None? ==> Persisted() == LoadEntry(old(Persisted()), sgid, cfg).value
      ensures err.Some? ==> LoadEntry(old(Persisted()), sgid, cfg) == Failure(err.value)
      ensures tempChannels == old(tempChannels) && cleanupTasks == old(cleanupTasks) && ownerRoom == old(ownerRoom)
    {
      var parsed := ParseInt(sgid);
      if parsed.None? {
        return None;
      }
      var gid := parsed.value;
      if !cfg.Object? {
        return Some(EntryNotMapping(sgid));
      }
      var lobby := Get(cfg.fields, LobbyKey);
      var cat := Get(cfg.fields, CategoryKey);
      if Truthy(lobby) {
        var id := ToInt(lobby);
        if id.None? {
          return Some(NotAnInt(sgid, LobbyKey));
        }
        channels := channels[gid := id.value];
      }
      if Truthy(cat) {
        var id := ToInt(cat);
        if id.None? {
          return Some(NotAnInt(sgid, CategoryKey));
        }
        categories := categories[gid := id.value];
      }
      var limit := ToInt(GetDefault(cfg.fields, UserLimitKey, Int(FallbackUserLimit)));
      if limit.None? {
        return Some(NotAnInt(sgid, UserLimitKey));
      }
      var bitrate := Get(cfg.fields, BitrateKey);
      var delay := ToInt(GetDefault(cfg.fields, DeleteDelayKey, Int(FallbackDeleteDelay)));
      if delay.None? {
        return Some(NotAnInt(sgid, DeleteDelayKey));
      }
      defaults := defaults[gid := Defaults(Some(limit.value), Some(bitrate), Some(delay.value))];
      err := None;
    }

    /** `voice_setup`: the lobby is stored, the category when one is given,
        and each given default clamped (user limit at least 0, bitrate in bps
        at least 8000, delete delay at least 5 seconds); a default that is
        not given keeps its previous value. Other guilds are untouched. */
    method VoiceSetup(gid: int, lobby: int, category: Option<int>, userLimit: Option<int>,
                      bitrateKbps: Option<int>, deleteDelay: Option<int>)
      modifies this
      ensures channels == old(channels)[gid := lobby]
      ensures categories == if category.Some? then old(categories)[gid := category.value] else old(categories)
      ensures gid in defaults && defaults == old(defaults)[gid := defaults[gid]]
      ensures var before := if gid in old(defaults) then old(defaults[gid]) else NoDefaults;
        && defaults[gid].userLimit == (if userLimit.Some? then Some(Max(0, userLimit.value)) else before.userLimit)
        && defaults[gid].bitrate ==
             (if bitrateKbps.Some? then Some(Int(Max(MinBitrate, bitrateKbps.value * 1000))) else before.bitrate)
        && defaults[gid].deleteDelay ==
             (if deleteDelay.Some? then Some(Max(MinDeleteDelay, deleteDelay.value)) else before.deleteDelay)
      ensures bitrateKbps.None? ==> RawBitrate(defaults, gid) == old(RawBitrate(defaults, gid))
      ensures UserLimit(defaults, gid) ==
        if userLimit.Some? then Max(0, userLimit.value) else old(UserLimit(defaults, gid))
      ensures BitrateBps(defaults, gid) ==
        if bitrateKbps.Some? then Some(Max(MinBitrate, bitrateKbps.value * 1000)) else old(BitrateBps(defaults, gid))
      ensures DeleteDelay(defaults, gid) ==
        if deleteDelay.Some? then Max(MinDeleteDelay, deleteDelay.value) else old(DeleteDelay(defaults, gid))
      ensures tempChannels == old(tempChannels) && cleanupTasks == old(cleanupTasks) && ownerRoom == old(ownerRoom)
    {
      channels := channels[gid := lobby];
      if category.Some? {
        categories := categories[gid := category.value];
      }
      var d := if gid in defaults then defaults[gid] else NoDefaults;
      if userLimit.Some? {
        d := d.(userLimit := Some(Max(0, userLimit.value)));
      }
      if bitrateKbps.Some? {
        d := d.(bitrate := Some(Int(Max(MinBitrate, bitrateKbps.value * 1000))));
      }
      if deleteDelay.Some? {
        d := d.(deleteDelay := Some(Max(MinDeleteDelay, deleteDelay.value)));
      }
      defaults := defaults[gid := d];
    }

    /** `_maybe_schedule_cleanup(channel)`: nothing happens to a room the cog
        does not track; an occupied room loses its pending deletion; an empty
        room without a task gets exactly one, sleeping for the guild's delete
        delay; an empty room that already has a task keeps it. */
    method MaybeScheduleCleanup(gid: int, channel: int, occupied: bool)
      modifies this
      ensures channel !in old(tempChannels) ==> cleanupTasks == old(cleanupTasks)
      ensures channel in old(tempChannels) && occupied ==> cleanupTasks == old(cleanupTasks) - {channel}
      ensures channel in old(tempChannels) && !occupied && channel in old(cleanupTasks) ==>
        cleanupTasks == old(cleanupTasks)
      ensures channel in old(tempChannels) && !occupied && channel !in old(cleanupTasks) ==>
        cleanupTasks == old(cleanupTasks)[channel := Sleeping(DeleteDelay(defaults, gid))]
      ensures Persisted() == old(Persisted())
      ensures tempChannels == old(tempChannels) && ownerRoom == old(ownerRoom)
      ensures old(Valid()) ==> Valid()
      ensures old(TasksValid()) ==> TasksValid()
    {
      if channel !in tempChannels {
        return;
      }
      var delay := DeleteDelay(defaults, gid);
      if occupied {
        cleanupTasks := cleanupTasks - {channel};
        return;
      }
      if channel in cleanupTasks {
        return;
      }
      cleanupTasks := cleanupTasks[channel := Sleeping(delay)];
    }

    /** Drops every owner entry that points at `channel`. */
    method ForgetOwners(channel: int)
      modifies this
      ensures ownerRoom == WithoutRoom(old(ownerRoom), channel)
      ensures Persisted() == old(Persisted())
      ensures tempChannels == old(tempChannels) && cleanupTasks == old(cleanupTasks)
    {
      var doomed := set k | k in ownerRoom && ownerRoom[k] == channel;
      var left := doomed;
      while left != {}
        invariant left <= doomed
        invariant ownerRoom == old(ownerRoom) - (doomed - left)
        invariant Persisted() == old(Persisted())
        invariant tempChannels == old(tempChannels) && cleanupTasks == old(cleanupTasks)
        decreases left
      {
        var k :| k in left;
        ownerRoom := ownerRoom - {k};
        left := left - {k};
        assert doomed - left == (doomed - (left + {k})) + {k};
      }
    }

    /** The body of `_cleanup()` once its delay is over, as written: if
        members came back it returns; otherwise the room's owner entries are
        dropped and the room is untracked, whether or not the delete raises.
        In both cases the finished task stays in `_cleanup_tasks`. */
    method FireCleanupAsWritten(channel: int, occupied: bool, deleteRaises: bool)
      requires channel in cleanupTasks && cleanupTasks[channel].Sleeping?
      modifies this
      ensures cleanupTasks == old(cleanupTasks)[channel := Finished]
      ensures occupied ==> tempChannels == old(tempChannels) && ownerRoom == old(ownerRoom)
      ensures !occupied ==>
        tempChannels == old(tempChannels) - {channel} && ownerRoom == WithoutRoom(old(ownerRoom), channel)
      ensures Persisted() == old(Persisted())
      ensures old(Valid()) ==> Valid()
    {
      if !occupied {
        ForgetOwners(channel);
        tempChannels := tempChannels - {channel};
        if deleteRaises {
          tempChannels := tempChannels - {channel};
          ForgetOwners(channel);
        }
      }
      cleanupTasks := cleanupTasks[channel := Finished];
    }

    /** `_cleanup()` as evidently intended: the same, except that the task
        takes itself out of `_cleanup_tasks` when it finishes, so the room
        can be scheduled again. */
    method FireCleanup(channel: int, occupied: bool, deleteRaises: bool)
      requires Valid() && TasksValid()
      requires channel in cleanupTasks
      modifies this
      ensures Valid() && TasksValid()
      ensures cleanupTasks == old(cleanupTasks) - {channel}
      ensures occupied ==> tempChannels == old(tempChannels) && ownerRoom == old(ownerRoom)
      ensures !occupied ==>
        tempChannels == old(tempChannels) - {channel} && ownerRoom == WithoutRoom(old(ownerRoom), channel)
      ensures Persisted() == old(Persisted())
    {
      if !occupied {
        ForgetOwners(channel);
        tempChannels := tempChannels - {channel};
        if deleteRaises {
          tempChannels := tempChannels - {channel};
          ForgetOwners(channel);
        }
      }
      cleanupTasks := cleanupTasks - {channel};
    }

    /** `_create_personal_channel`: the room is created with the guild's user
        limit, the chosen bitrate and category, then tracked, and any stray
        deletion task for its id is cancelled. */
    method CreatePersonalChannel(gid: int, view: GuildView) returns (room: Room)
      modifies this
      ensures room == Room(view.createdId, RoomCategory(categories, gid, view), UserLimit(defaults, gid),
                           ChooseBitrate(BitrateBps(defaults, gid), view.lobbyBitrate, view.bitrateLimit))
      ensures tempChannels == old(tempChannels) + {view.createdId}
      ensures cleanupTasks == old(cleanupTasks) - {view.createdId}
      ensures Persisted() == old(Persisted()) && ownerRoom == old(ownerRoom)
    {
      var category := RoomCategory(categories, gid, view);
      var desired := BitrateBps(defaults, gid);
      var bitrate := ChooseBitrate(desired, view.lobbyBitrate, view.bitrateLimit);
      room := Room(view.createdId, category, UserLimit(defaults, gid), bitrate);
      tempChannels := tempChannels + {room.id};
      cleanupTasks := cleanupTasks - {room.id};
    }

    /** `_move_to_existing_or_create(member, lobby)`: an owner whose room
        still exists gets that room back, its pending deletion cancelled and
        nothing created; a room that vanished is forgotten (owner entry,
        tracking, task) and, like an owner without a room, the member gets
        a new room mapped to them. */
    method MoveToExistingOrCreate(gid: int, user: int, view: GuildView) returns (room: int, created: Option<Room>)
      requires Valid()
      requires view.createdId !in tempChannels
      modifies this
      ensures Valid()
      ensures var key := (gid, user);
        var had := key in old(ownerRoom) && old(ownerRoom)[key] != 0;
        && (had && view.roomIsVoice ==>
              && room == old(ownerRoom)[key] && created.None?
              && cleanupTasks == old(cleanupTasks) - {room}
              && tempChannels == old(tempChannels) && ownerRoom == old(ownerRoom))
        && (had && !view.roomIsVoice ==>
              && tempChannels == old(tempChannels) - {old(ownerRoom)[key]} + {view.createdId}
              && cleanupTasks == old(cleanupTasks) - {old(ownerRoom)[key]} - {view.createdId})
        && (!had ==>
              && tempChannels == old(tempChannels) + {view.createdId}
              && cleanupTasks == old(cleanupTasks) - {view.createdId})
        && (!(had && view.roomIsVoice) ==>
              && room == view.createdId && ownerRoom == old(ownerRoom)[key := room]
              && created == Some(Room(room, RoomCategory(categories, gid, view), UserLimit(defaults, gid),
                                      ChooseBitrate(BitrateBps(defaults, gid), view.lobbyBitrate, view.bitrateLimit))))
      ensures (gid, user) in ownerRoom && ownerRoom[(gid, user)] == room && room in tempChannels
      ensures room == PlacedRoom(old(ownerRoom), gid, user, view)
      ensures ownerRoom == old(ownerRoom)[(gid, user) := room]
      ensures tempChannels == PlacedRooms(old(tempChannels), old(ownerRoom), gid, user, view)
      ensures room !in cleanupTasks
      ensures Persisted() == old(Persisted())
      ensures old(TasksValid()) ==> TasksValid()
    {
      var key := (gid, user);
      if key in ownerRoom && ownerRoom[key] != 0 {
        var chan := ownerRoom[key];
        if view.roomIsVoice {
          cleanupTasks := cleanupTasks - {chan};
          return chan, None;
        }
        ownerRoom := ownerRoom - {key};
        tempChannels := tempChannels - {chan};
        cleanupTasks := cleanupTasks - {chan};
      }
      var made := CreatePersonalChannel(gid, view);
      ownerRoom := ownerRoom[key := made.id];
      room, created := made.id, Some(made);
    }

    /** `on_voice_state_update`: the channel left is considered for
        deletion; a member who arrives in the guild's lobby (set and not 0)
        from elsewhere is placed in their room, and the lobby is then
        considered for deletion too. `moved` says whether that happened. */
    method OnVoiceStateUpdate(gid: int, user: int, before: Option<int>, after: Option<int>,
                              beforeOccupied: bool, lobbyOccupied: bool, view: GuildView)
      returns (moved: bool)
      requires Valid()
      requires view.createdId !in tempChannels
      modifies this
      ensures Valid()
      ensures moved <==>
        after.Some? && after != before && gid in channels && channels[gid] != 0 && after.value == channels[gid]
      ensures moved ==> (gid, user) in ownerRoom && ownerRoom[(gid, user)] in tempChannels
      ensures moved ==>
        && ownerRoom[(gid, user)] == PlacedRoom(old(ownerRoom), gid, user, view)
        && ownerRoom == old(ownerRoom)[(gid, user) := ownerRoom[(gid, user)]]
        && tempChannels == PlacedRooms(old(tempChannels), old(ownerRoom), gid, user, view)
      ensures !moved ==> tempChannels == old(tempChannels) && ownerRoom == old(ownerRoom)
      ensures var left :=
          if before.Some?
          then Scheduled(old(cleanupTasks), old(tempChannels), before.value, beforeOccupied, old(DeleteDelay(defaults, gid)))
          else old(cleanupTasks);
        && (!moved ==> cleanupTasks == left)
        && (moved && ownerRoom[(gid, user)] != after.value ==> ownerRoom[(gid, user)] !in cleanupTasks)
        && (moved ==> forall c :: c in cleanupTasks && c != after.value ==> c in left && cleanupTasks[c] == left[c])
        && (moved ==> forall c ::
              (c in left && c != after.value && c != ownerRoom[(gid, user)]
               && !((gid, user) in old(ownerRoom) && c == old(ownerRoom)[(gid, user)])) ==> c in cleanupTasks)
      ensures Persisted() == old(Persisted())
      ensures old(TasksValid()) ==> TasksValid()
    {
      if before.Some? {
        MaybeScheduleCleanup(gid, before.value, beforeOccupied);
      }
      if after.None? || after == before {
        return false;
      }
      if gid !in channels || channels[gid] == 0 || after.value != channels[gid] {
        return false;
      }
      var room := PlaceFromLobby(gid, user, after.value, lobbyOccupied, view);
      moved := true;
    }

    /** The lobby branch of `on_voice_state_update`: the member is placed in
        their room, then the lobby is considered for deletion. The room has
        no pending deletion unless it is the lobby itself; apart from the
        lobby, tasks are only cancelled, and only for the room and for the
        member's vanished room. */
    method PlaceFromLobby(gid: int, user: int, lobby: int, lobbyOccupied: bool, view: GuildView) returns (room: int)
      requires Valid()
      requires view.createdId !in tempChannels
      modifies this
      ensures Valid()
      ensures (gid, user) in ownerRoom && ownerRoom[(gid, user)] == room && room in tempChannels
      ensures room == PlacedRoom(old(ownerRoom), gid, user, view)
      ensures ownerRoom == old(ownerRoom)[(gid, user) := room]
      ensures tempChannels == PlacedRooms(old(tempChannels), old(ownerRoom), gid, user, view)
      ensures room != lobby ==> room !in cleanupTasks
      ensures forall c :: c in cleanupTasks && c != lobby ==> c in old(cleanupTasks) && cleanupTasks[c] == old(cleanupTasks)[c]
      ensures forall c ::
        (c in old(cleanupTasks) && c != lobby && c != room
         && !((gid, user) in old(ownerRoom) && c == old(ownerRoom)[(gid, user)])) ==> c in cleanupTasks
      ensures Persisted() == old(Persisted())
      ensures old(TasksValid()) ==> TasksValid()
    {
      var created;
      room, created := MoveToExistingOrCreate(gid, user, view);
      MaybeScheduleCleanup(gid, lobby, lobbyOccupied);
    }
  }

  /** The cleanup as written can strand a room: the last member leaves, someone
      joins the room directly (not through the lobby, so nothing cancels the
      task) and is still there when the delay ends, then leaves. The room is
      tracked and empty, yet its only task has finished and no new one is
      scheduled, because the finished task still counts as scheduled. Only a
      later check while the room is occupied, or its owner coming back
      through the lobby, clears the stale entry. */
  method StrandedRoom(cog: VoiceCog, gid: int, visitor: int, channel: int, view: GuildView)
    requires cog.Valid()
    requires channel in cog.tempChannels && channel !in cog.cleanupTasks
    requires gid !in cog.channels || cog.channels[gid] != channel
    requires view.createdId !in cog.tempChannels
    modifies cog
    ensures channel in cog.tempChannels
    ensures channel in cog.cleanupTasks && !cog.cleanupTasks[channel].Sleeping?
  {
    // The owner leaves: on_voice_state_update looks at the channel left.
    cog.MaybeScheduleCleanup(gid, channel, false);
    // The visitor joins the room itself, which is not the lobby.
    var moved := cog.OnVoiceStateUpdate(gid, visitor, None, Some(channel), false, false, view);
    // The delay ends with the visitor inside.
    cog.FireCleanupAsWritten(channel, true, false);
    // The visitor leaves.
    cog.MaybeScheduleCleanup(gid, channel, false);
  }

  /** With the corrected cleanup the same sequence of events leaves the empty
      room with a sleeping deletion task. */
  method RescheduledRoom(cog: VoiceCog, gid: int, visitor: int, channel: int, view: GuildView)
    requires cog.Valid() && cog.TasksValid()
    requires channel in cog.tempChannels && channel !in cog.cleanupTasks
    requires gid !in cog.channels || cog.channels[gid] != channel
    requires view.createdId !in cog.tempChannels
    modifies cog
    ensures cog.Valid() && cog.TasksValid()
    ensures channel in cog.tempChannels
    ensures channel in cog.cleanupTasks && cog.cleanupTasks[channel] == Sleeping(DeleteDelay(cog.defaults, gid))
  {
    // The owner leaves: on_voice_state_update looks at the channel left.
    cog.MaybeScheduleCleanup(gid, channel, false);
    // The visitor joins the room itself, which is not the lobby.
    var moved := cog.OnVoiceStateUpdate(gid, visitor, None, Some(channel), false, false, view);
    // The delay ends with the visitor inside.
    cog.FireCleanup(channel, true, false);
    // The visitor leaves.
    cog.MaybeScheduleCleanup(gid, channel, false);
  }
}
