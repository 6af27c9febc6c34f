/** The bot's start-up settings, read from the process environment
    (`src/core/config.py`). */
module Config {
  import opened Wrappers
  import opened Strings

  /** The settings record. A Dafny datatype value cannot be changed after it
      is built, as the frozen dataclass cannot. */
  datatype Settings = Settings(token: string, guildIds: seq<int>)

  /** What `load_settings` raises: the `RuntimeError` for a missing token, or
      the `ValueError` of `int()` on a guild id entry. */
  datatype SettingsError = MissingToken | BadGuildId(entry: string)

  const TokenVar := "DISCORD_TOKEN"
  const GuildIdsVar := "GUILD_IDS"

  /** `os.getenv(name, "")` over the environment given as a map. */
  function GetEnv(env: map<string, string>, name: string): string {
    if name in env then env[name] else ""
  }

  /** The entries that are not blank after stripping, in order: an entry
      is kept exactly when it is not blank, and a list without blank
      entries is kept whole. */
  function NonBlank(entries: seq<string>): (r: seq<string>)
    ensures |r| <= |entries|
    ensures forall i :: 0 <= i < |r| ==> Strip(r[i]) != []
    ensures forall e :: e in r <==> e in entries && Strip(e) != []
    ensures (forall i :: 0 <= i < |entries| ==> Strip(entries[i]) != []) ==> r == entries
  {
    if entries == [] then []
    else if Strip(entries[0]) == [] then NonBlank(entries[1..])
    else [entries[0]] + NonBlank(entries[1..])
  }

  /** Filtering keeps the order: the kept entries of a concatenation are the
      kept entries of its first part followed by those of its second. */
  lemma {:induction false} NonBlankAppend(a: seq<string>, b: seq<string>)
    ensures NonBlank(a + b) == NonBlank(a) + NonBlank(b)
  {
    if a == [] {
      assert a + b == b;
    } else {
      assert (a + b)[1..] == a[1..] + b;
      NonBlankAppend(a[1..], b);
    }
  }

  /** Every non-blank entry is an integer. */
  predicate AllParse(entries: seq<string>) {
    forall k :: 0 <= k < |NonBlank(entries)| ==> ParseInt(NonBlank(entries)[k]).Some?
  }

  /** `tuple(int(x) for x in entries if x.strip())`: blank entries are skipped,
      the others parsed in order (duplicates kept); the first entry that is
      not an integer raises. */
  function ParseIds(entries: seq<string>): (r: Result<seq<int>, SettingsError>)
    ensures r.Success? <==> AllParse(entries)
    ensures r.Success? ==> |r.value| == |NonBlank(entries)|
    ensures r.Success? ==> forall k :: 0 <= k < |r.value| ==> ParseInt(NonBlank(entries)[k]) == Some(r.value[k])
    ensures r.Failure? ==> r.error.BadGuildId? && r.error.entry in NonBlank(entries) && ParseInt(r.error.entry).None?
  {
    if entries == [] then Success([])
    else if Strip(entries[0]) == [] then
      assert NonBlank(entries) == NonBlank(entries[1..]);
      ParseIds(entries[1..])
    else
      var nb := NonBlank(entries);
      assert nb == [entries[0]] + NonBlank(entries[1..]);
      assert forall k :: 1 <= k < |nb| ==> nb[k] == NonBlank(entries[1..])[k - 1];
      assert forall k :: 0 <= k < |NonBlank(entries[1..])| ==> NonBlank(entries[1..])[k] == nb[k + 1];
      match ParseInt(entries[0])
      case None =>
        assert ParseInt(nb[0]).None?;
        Failure(BadGuildId(entries[0]))
      case Some(n) =>
        match ParseIds(entries[1..])
        case Failure(e) => Failure(e)
        case Success(ns) => Success([n] + ns)
  }

  /** `load_settings()` */
  function LoadSettings(env: map<string, string>): (r: Result<Settings, SettingsError>)
    ensures r == Failure(MissingToken) <==> GetEnv(env, TokenVar) == []
    ensures r.Success? ==> r.value.token == GetEnv(env, TokenVar)
    ensures r.Success? ==> Success(r.value.guildIds) == ParseIds(Split(GetEnv(env, GuildIdsVar), ','))
  {
    var token := GetEnv(env, TokenVar);
    if token == [] then Failure(MissingToken)
    else
      match ParseIds(Split(GetEnv(env, GuildIdsVar), ','))
      case Failure(e) => Failure(e)
      case Success(ids) => Success(Settings(token, ids))
  }

  /** An unset or empty `GUILD_IDS` gives no guild ids. */
  lemma EmptyGuildIds(env: map<string, string>)
    requires GetEnv(env, TokenVar) != [] && GetEnv(env, GuildIdsVar) == []
    ensures LoadSettings(env) == Success(Settings(GetEnv(env, TokenVar), []))
  {
    assert Split([], ',') == [[]];
    assert Strip([]) == [];
  }

  /** The comma-separated form of a list of guild ids. */
  function ShowIds(ids: seq<int>): (r: seq<string>)
    ensures |r| == |ids|
    ensures forall i :: 0 <= i < |ids| ==> r[i] == IntToString(ids[i])
  {
    seq(|ids|, i requires 0 <= i < |ids| => IntToString(ids[i]))
  }

  /** Writing any list of guild ids (duplicates and order included) into
      `GUILD_IDS` with commas reads back exactly that list. */
  lemma {:induction false} GuildIdsRoundTrip(ids: seq<int>)
    ensures ParseIds(Split(Join(ShowIds(ids), ','), ',')) == Success(ids)
  {
    if ids == [] {
      assert Split([], ',') == [[]];
      assert Strip([]) == [];
    } else {
      SplitJoin(ShowIds(ids), ',');
      IdsParse(ids);
    }
  }

  lemma {:induction false} IdsParse(ids: seq<int>)
    ensures ParseIds(ShowIds(ids)) == Success(ids)
  {
    if ids != [] {
      var s := ShowIds(ids);
      assert s[1..] == ShowIds(ids[1..]);
      StripNoop(s[0]);
      IntToStringRoundTrip(ids[0]);
      IdsParse(ids[1..]);
      assert ids == [ids[0]] + ids[1..];
    }
  }

  /** With the token set, `load_settings` returns exactly the ids written. */
  lemma LoadSettingsRoundTrip(env: map<string, string>, ids: seq<int>)
    requires GetEnv(env, TokenVar) != []
    requires GuildIdsVar in env && env[GuildIdsVar] == Join(ShowIds(ids), ',')
    ensures LoadSettings(env) == Success(Settings(GetEnv(env, TokenVar), ids))
  {
    GuildIdsRoundTrip(ids);
  }
}
