/** The pure helpers of the Kaneo integration (`src/modules/kaneo/cog.py`):
    base-URL normalisation and path joining, the per-guild configuration and
    its JSON form, event normalisation, message formatting, and the choice of
    request from a cached feed path. */
module KaneoHelpers {
  import opened Wrappers
  import opened Strings
  import opened Json

  const Scheme := "https://"
  const SchemeMark := "://"
  const DefaultPollSec := 30
  const DetailsCap := 500
  const Ellipsis := '…'

  /** `sub in s` means the first character of `sub` occurs in `s`. */
  lemma {:induction false} ContainsHead(s: string, sub: string)
    requires sub != [] && Contains(s, sub)
    ensures exists i :: 0 <= i < |s| && s[i] == sub[0]
  {
    if StartsWith(s, sub) {
      assert s[0] == sub[0];
    } else {
      ContainsHead(s[1..], sub);
      var i :| 0 <= i < |s[1..]| && s[1..][i] == sub[0];
      assert s[i + 1] == sub[0];
    }
  }

  /** `_normalize_base(url)`: blank input gives `""`; otherwise the stripped
      input, with `https://` in front when it has no `://`, and with every
      trailing `/` removed. */
  function NormalizeBase(url: string): (r: string)
    ensures r == [] <==> IsBlank(url)
    ensures r == [] || r[|r| - 1] != '/'
    ensures !IsBlank(url) ==>
      var u := Strip(url);
      var w := if Contains(u, SchemeMark) then u else Scheme + u;
      StartsWith(w, r) && forall i :: |r| <= i < |w| ==> w[i] == '/'
  {
    StripShape(url);
    var u := Strip(url);
    if u == [] then []
    else
      var w := if Contains(u, SchemeMark) then u else Scheme + u;
      RStripCharDropped(w, '/');
      var r := RStripChar(w, '/');
      assert r != [] by {
        if Contains(u, SchemeMark) {
          ContainsHead(u, SchemeMark);
        } else {
          assert w[0] == 'h';
        }
      }
      r
  }

  lemma {:induction false} LStripSnoc(p: string, c: char)
    ensures LStripChar(p + [c], c) == (if LStripChar(p, c) == [] then [] else LStripChar(p, c) + [c])
  {
    if p != [] {
      assert (p + [c])[1..] == p[1..] + [c];
      if p[0] == c {
        LStripSnoc(p[1..], c);
      }
    }
  }

  /** Surrounding slashes on the prefix do not matter. */
  lemma StripCharSlashes(p: string)
    ensures StripChar("/" + p + "/", '/') == StripChar(p, '/')
  {
    var s := "/" + p + "/";
    assert s[0] == '/' && s[1..] == p + "/";
    assert LStripChar(s, '/') == LStripChar(p + "/", '/');
    LStripSnoc(p, '/');
    var l := LStripChar(p, '/');
    if l != [] {
      var t := l + "/";
      assert t[|t| - 1] == '/' && t[..|t| - 1] == l;
      assert RStripChar(t, '/') == RStripChar(l, '/');
    }
  }

  /** `base/prefix/rest`, or `base/rest` for an empty prefix. */
  function Segments(b: string, p: string, rest: string): (r: string)
    requires p == [] || p[0] != '/'
    requires rest == [] || rest[0] != '/'
    ensures StartsWith(r, b + "/") && EndsWith(r, rest)
    ensures |r| > |b| + 1 ==> r[|b| + 1] != '/'
    ensures p != [] ==> r == b + "/" + p + "/" + rest
    ensures p == [] ==> r == b + "/" + rest
  {
    var head := b + "/";
    var mid := if p != [] then p + "/" + rest else rest;
    var r := head + mid;
    assert r[..|head|] == head;
    assert |r| > |head| ==> r[|head|] == mid[0];
    assert mid[|mid| - |rest|..] == rest;
    assert r[|r| - |rest|..] == mid[|mid| - |rest|..];
    r
  }

  /** `_join(base, prefix, path)`: the normalised base, then the prefix
      without slashes at its ends (if any is left), then the path without
      leading slashes, separated by single slashes. */
  function JoinPath(base: string, prefix: string, path: string): (r: string)
    ensures StartsWith(r, NormalizeBase(base) + "/")
    ensures EndsWith(r, LStripChar(path, '/'))
    ensures StripChar(prefix, '/') == [] ==> r == NormalizeBase(base) + "/" + LStripChar(path, '/')
    ensures StripChar(prefix, '/') != [] ==>
      r == NormalizeBase(base) + "/" + StripChar(prefix, '/') + "/" + LStripChar(path, '/')
    ensures |r| > |NormalizeBase(base)| + 1 ==> r[|NormalizeBase(base)| + 1] != '/'
  {
    Segments(NormalizeBase(base), StripChar(prefix, '/'), LStripChar(path, '/'))
  }

  /** Extra slashes around the prefix or before the path change nothing. */
  lemma JoinIgnoresSlashes(base: string, prefix: string, path: string)
    ensures JoinPath(base, "/" + prefix + "/", "/" + path) == JoinPath(base, prefix, path)
  {
    StripCharSlashes(prefix);
    assert ("/" + path)[1..] == path;
  }

  /** `GuildConfig`: `None` maps are the dataclass's `None` defaults. */
  datatype GuildConfig = GuildConfig(
    baseUrl: string,
    pollSec: int,
    pathPrefix: string,
    email: string,
    password: string,
    routes: Option<map<string, int>>,
    since: Option<map<string, string>>,
    feed: Option<map<string, string>>)

  /** `GuildConfig()` */
  function DefaultConfig(): GuildConfig {
    GuildConfig("", DefaultPollSec, "", "", "", None, None, None)
  }

  /** `m or {}` */
  function OrEmpty<V>(m: Option<map<string, V>>): map<string, V> {
    if m.Some? then m.value else map[]
  }

  const BaseUrlKey := "base_url"
  const PollSecKey := "poll_sec"
  const PathPrefixKey := "path_prefix"
  const EmailKey := "email"
  const PasswordKey := "password"
  const RoutesKey := "routes"
  const SinceKey := "since"
  const FeedKey := "_feed"

  function IntObject(m: map<string, int>): Value {
    Object(map k | k in m :: Int(m[k]))
  }

  function StrObject(m: map<string, string>): Value {
    Object(map k | k in m :: Str(m[k]))
  }

  /** `GuildConfig.to_dict()` */
  function ToDict(c: GuildConfig): (d: map<string, Value>)
    ensures d.Keys == {BaseUrlKey, PollSecKey, PathPrefixKey, EmailKey, PasswordKey, RoutesKey, SinceKey, FeedKey}
  {
    map[
      BaseUrlKey := Str(c.baseUrl),
      PollSecKey := Int(c.pollSec),
      PathPrefixKey := Str(c.pathPrefix),
      EmailKey := Str(c.email),
      PasswordKey := Str(c.password),
      RoutesKey := IntObject(OrEmpty(c.routes)),
      SinceKey := StrObject(OrEmpty(c.since)),
      FeedKey := StrObject(OrEmpty(c.feed))
    ]
  }

  /** Where `from_dict` raises (or, for a non-string text field, where this
      model refuses the value). */
  datatype ConfigError = NotAString(key: string) | BadPollSec | NotAMapping(key: string) | BadRoute

  /** `d.get(key, "")` for a text field. */
  function TextField(d: map<string, Value>, key: string): (r: Result<string, ConfigError>)
    ensures key !in d ==> r == Success("")
    ensures key in d && d[key].Str? ==> r == Success(d[key].s)
  {
    if key !in d then Success("")
    else if d[key].Str? then Success(d[key].s)
    else Failure(NotAString(key))
  }

  /** `d.get(key) or {}` as a mapping: a falsy value is empty; a truthy value
      must be an object. */
  function MappingField(d: map<string, Value>, key: string): (r: Result<map<string, Value>, ConfigError>)
    ensures !Truthy(Get(d, key)) ==> r == Success(map[])
    ensures Get(d, key).Object? ==> r == Success(Get(d, key).fields)
  {
    var v := Get(d, key);
    if !Truthy(v) then Success(map[])
    else if v.Object? then Success(v.fields)
    else Failure(NotAMapping(key))
  }

  /** `{k: int(v) for k, v in m.items()}` */
  function IntValues(m: map<string, Value>): (r: Result<map<string, int>, ConfigError>)
    ensures r.Success? <==> forall k :: k in m ==> ToInt(m[k]).Some?
    ensures r.Success? ==> r.value.Keys == m.Keys && forall k :: k in m ==> Some(r.value[k]) == ToInt(m[k])
  {
    if forall k :: k in m ==> ToInt(m[k]).Some? then
      Success(map k | k in m :: ToInt(m[k]).value)
    else Failure(BadRoute)
  }

  /** `{k: str(v) for k, v in m.items()}` */
  function StrValues(m: map<string, Value>): (r: map<string, string>)
    ensures r.Keys == m.Keys && forall k :: k in m ==> r[k] == Show(m[k])
  {
    map k | k in m :: Show(m[k])
  }

  /** `GuildConfig.from_dict(d)` */
  function FromDict(d: map<string, Value>): (r: Result<GuildConfig, ConfigError>)
    ensures r.Success? && PollSecKey !in d ==> r.value.pollSec == DefaultPollSec
    ensures r.Success? && PollSecKey in d ==> Some(r.value.pollSec) == ToInt(d[PollSecKey])
    ensures r.Success? ==> r.value.routes.Some? && r.value.since.Some? && r.value.feed.Some?
    ensures PollSecKey in d && ToInt(d[PollSecKey]).None? ==> r.Failure?
  {
    var baseUrl :- TextField(d, BaseUrlKey);
    var poll := ToInt(if PollSecKey in d then d[PollSecKey] else Int(DefaultPollSec));
    if poll.None? then Failure(BadPollSec)
    else
      var prefix :- TextField(d, PathPrefixKey);
      var email :- TextField(d, EmailKey);
      var password :- TextField(d, PasswordKey);
      var routesIn :- MappingField(d, RoutesKey);
      var routes :- IntValues(routesIn);
      var sinceIn :- MappingField(d, SinceKey);
      var feedIn :- MappingField(d, FeedKey);
      Success(GuildConfig(baseUrl, poll.value, prefix, email, password,
                          Some(routes), Some(StrValues(sinceIn)), Some(StrValues(feedIn))))
  }

  /** Integer routes read back as themselves. */
  lemma IntValuesRoundTrip(m: map<string, int>)
    ensures IntValues(IntObject(m).fields) == Success(m)
  {
    var fields := IntObject(m).fields;
    forall k | k in fields ensures ToInt(fields[k]) == Some(m[k]) { }
    assert IntValues(fields).value == m;
  }

  /** Text values read back as themselves. */
  lemma StrValuesRoundTrip(m: map<string, string>)
    ensures StrValues(StrObject(m).fields) == m
  {
  }

  /** `from_dict(to_dict(c))` gives `c` back, except that `None` maps come
      back empty. */
  lemma ConfigRoundTrip(c: GuildConfig)
    ensures FromDict(ToDict(c)) ==
      Success(c.(routes := Some(OrEmpty(c.routes)), since := Some(OrEmpty(c.since)), feed := Some(OrEmpty(c.feed))))
  {
    var d := ToDict(c);
    IntValuesRoundTrip(OrEmpty(c.routes));
    StrValuesRoundTrip(OrEmpty(c.since));
    StrValuesRoundTrip(OrEmpty(c.feed));
    assert MappingField(d, RoutesKey) == Success(IntObject(OrEmpty(c.routes)).fields);
    assert MappingField(d, SinceKey) == Success(StrObject(OrEmpty(c.since)).fields);
    assert MappingField(d, FeedKey) == Success(StrObject(OrEmpty(c.feed)).fields);
  }

  /** `_looks_like_list(data)`: a list that is empty or starts with an
      object, a string or an integer (a boolean is an integer in Python);
      never a null, a scalar or an object. */
  predicate LooksLikeList(data: Value)
    ensures LooksLikeList(data) ==> data.List?
    ensures data.List? && data.items != [] && (data.items[0].Null? || data.items[0].List?) ==> !LooksLikeList(data)
    ensures data.List? && (data.items == [] || data.items[0].Object? || data.items[0].Str?
                           || data.items[0].Int? || data.items[0].Bool?)
            ==> LooksLikeList(data)
  {
    data.List? && (data.items == [] || data.items[0].Object? || data.items[0].Str?
                   || data.items[0].Int? || data.items[0].Bool?)
  }

  /** A reply body the feed probe accepts always normalises without raising,
      and one that starts with an object yields at least one event. */
  lemma LooksLikeListNormalizes(data: Value)
    requires LooksLikeList(data)
    ensures NormalizeEvents(data).Success?
    ensures data.items != [] && data.items[0].Object? ==> |NormalizeEvents(data).value| >= 1
  {
  }

  /** Text over 500 characters is cut to its first 500 plus `…`. */
  function CapDetails(s: string): (r: string)
    ensures |s| <= DetailsCap ==> r == s
    ensures |s| > DetailsCap ==> |r| == DetailsCap + 1 && r[..DetailsCap] == s[..DetailsCap] && r[DetailsCap] == Ellipsis
  {
    if |s| > DetailsCap then s[..DetailsCap] + [Ellipsis] else s
  }

  /** Capping twice is capping once, and a capped text has at most 501
      characters. */
  lemma CapDetailsIdempotent(s: string)
    ensures |CapDetails(s)| <= DetailsCap + 1
    ensures CapDetails(CapDetails(s)) == CapDetails(s)
  {
    if |s| > DetailsCap {
      var r := CapDetails(s);
      assert r[..DetailsCap] + [Ellipsis] == r;
    }
  }

  type Event = map<string, Value>

  const EventKeys := {"id", "title", "by", "type", "url", "timestamp", "details"}

  /** The keys each field of an event is looked up under, in order. */
  const IdKeys := ["id", "key", "uid", "ts"]
  const TitleKeys := ["title", "summary", "name", "task_title"]
  const AuthorKeys := ["by", "author", "user", "assignee"]
  const TypeKeys := ["type", "event", "status"]
  const UrlKeys := ["url", "link"]
  const TimestampKeys := ["timestamp", "ts", "updated_at"]
  const DetailsKeys := ["details", "description", "body"]

  /** The event dict built from its seven field values. */
  function MakeEvent(id: Value, title: Value, author: Value, typ: Value, url: Value, ts: Value, details: Value): (ev: Event)
    ensures ev.Keys == EventKeys
    ensures ev["id"] == id && ev["title"] == title && ev["by"] == author && ev["type"] == typ
    ensures ev["url"] == url && ev["timestamp"] == ts && ev["details"] == details
  {
    map["id" := id, "title" := title, "by" := author, "type" := typ, "url" := url, "timestamp" := ts, "details" := details]
  }

  /** Text details over the cap are cut; other values are kept. */
  function CapValue(d: Value): (r: Value)
    ensures r.Str? <==> d.Str?
    ensures r.Str? ==> r.s == CapDetails(d.s) && |r.s| <= DetailsCap + 1
    ensures !d.Str? ==> r == d
  {
    if d.Str? then CapDetailsIdempotent(d.s); Str(CapDetails(d.s)) else d
  }

  /** The normalised form of one raw event object: each field is the value
      at the first key of its list whose value is truthy, else the fallback;
      text details are capped. */
  function NormalizeEvent(it: map<string, Value>): (ev: Event)
    ensures ev.Keys == EventKeys
    ensures ev["id"] == FirstTruthyOr(it, IdKeys, Get(it, "timestamp"))
    ensures ev["title"] == FirstTruthyOr(it, TitleKeys, Str("Update"))
    ensures ev["by"] == FirstTruthyOr(it, AuthorKeys, Str(""))
    ensures ev["type"] == FirstTruthyOr(it, TypeKeys, Str("update"))
    ensures ev["url"] == FirstTruthyOr(it, UrlKeys, Get(it, "href"))
    ensures ev["timestamp"] == FirstTruthyOr(it, TimestampKeys, Get(it, "created_at"))
    ensures ev["details"] == CapValue(FirstTruthyOr(it, DetailsKeys, Get(it, "comment")))
    ensures Truthy(ev["title"]) && Truthy(ev["type"])
    ensures ev["details"].Str? ==> |ev["details"].s| <= DetailsCap + 1
  {
    var id := OrGet(it, IdKeys, Get(it, "timestamp"));
    var title := OrGet(it, TitleKeys, Str("Update"));
    var author := OrGet(it, AuthorKeys, Str(""));
    var typ := OrGet(it, TypeKeys, Str("update"));
    var url := OrGet(it, UrlKeys, Get(it, "href"));
    var ts := OrGet(it, TimestampKeys, Get(it, "created_at"));
    var details := OrGet(it, DetailsKeys, Get(it, "comment"));
    OrGetFirstTruthy(it, IdKeys, Get(it, "timestamp"));
    OrGetFirstTruthy(it, TitleKeys, Str("Update"));
    OrGetFirstTruthy(it, AuthorKeys, Str(""));
    OrGetFirstTruthy(it, TypeKeys, Str("update"));
    OrGetFirstTruthy(it, UrlKeys, Get(it, "href"));
    OrGetFirstTruthy(it, TimestampKeys, Get(it, "created_at"));
    OrGetFirstTruthy(it, DetailsKeys, Get(it, "comment"));
    MakeEvent(id, title, author, typ, url, ts, CapValue(details))
  }

  /** The object items of a list, in order. */
  function ObjectItems(items: seq<Value>): (r: seq<map<string, Value>>)
    ensures |r| <= |items|
    ensures forall o :: o in r <==> Object(o) in items
  {
    if items == [] then []
    else if items[0].Object? then [items[0].fields] + ObjectItems(items[1..])
    else ObjectItems(items[1..])
  }

  /** Filtering keeps the relative order of the items. */
  lemma {:induction false} ObjectItemsAppend(a: seq<Value>, b: seq<Value>)
    ensures ObjectItems(a + b) == ObjectItems(a) + ObjectItems(b)
  {
    if a == [] {
      assert a + b == b;
    } else {
      assert (a + b)[0] == a[0];
      assert (a + b)[1..] == a[1..] + b;
      ObjectItemsAppend(a[1..], b);
    }
  }

  /** `events` holds, in order, the normalised form of each object item. */
  predicate NormalizedFrom(events: seq<Event>, items: seq<Value>) {
    && |events| == |ObjectItems(items)|
    && forall i :: 0 <= i < |events| ==> events[i] == NormalizeEvent(ObjectItems(items)[i])
  }

  /** The loop body of `_normalize_events` over a list of items. */
  function NormalizeList(items: seq<Value>): (r: seq<Event>)
    ensures NormalizedFrom(r, items)
    ensures forall ev :: ev in r ==> ev.Keys == EventKeys
  {
    var objs := ObjectItems(items);
    seq(|objs|, i requires 0 <= i < |objs| => NormalizeEvent(objs[i]))
  }

  /** Iterating a value that is neither a list, a string nor an object. */
  datatype NotIterable = NotIterable

  /** `_normalize_events(data)`: the items are `data["events"]` for an object
      with that key, or `data` itself for a list, and nothing otherwise. Only
      object items are kept, each normalised, in order; iterating a string or
      an object yields no objects, and iterating a null, boolean or number
      raises. */
  function NormalizeEvents(data: Value): (r: Result<seq<Event>, NotIterable>)
    ensures r.Failure? <==> data.Object? && "events" in data.fields
                            && (data.fields["events"].Null? || data.fields["events"].Bool? || data.fields["events"].Int?)
    ensures !(data.Object? && "events" in data.fields) && !data.List? ==> r == Success([])
    ensures data.Object? && "events" in data.fields && (data.fields["events"].Str? || data.fields["events"].Object?) ==>
      r == Success([])
    ensures data.Object? && "events" in data.fields && data.fields["events"].List? ==>
      r.Success? && NormalizedFrom(r.value, data.fields["events"].items)
    ensures data.List? ==> r.Success? && NormalizedFrom(r.value, data.items)
    ensures r.Success? ==> forall ev :: ev in r.value ==> ev.Keys == EventKeys
  {
    var items := if data.Object? && "events" in data.fields then data.fields["events"]
                 else if data.List? then data else List([]);
    match items
    case List(xs) => Success(NormalizeList(xs))
    case Str(_) => Success([])
    case Object(_) => Success([])
    case _ => Failure(NotIterable)
  }

  /** A value that `"\n".join` cannot take, or `len()` of a non-sized value. */
  datatype FormatError = NotText(key: string)

  /** The first line of a message. */
  function Header(project: string, title: Value, typ: Value): string {
    "**[" + project + "] " + Show(title) + "**  •  *" + Show(typ) + "*"
  }

  /** The lines of a message after the header, in order. */
  function MessageLines(project: string, ev: Event): (r: Result<seq<string>, FormatError>)
    ensures r.Success? ==> |r.value| >= 1
  {
    var title := Either(Get(ev, "title"), Str("Update"));
    var typ := Either(Get(ev, "type"), Str("update"));
    var author := Either(Get(ev, "by"), Str(""));
    var url := Get(ev, "url");
    var details := Get(ev, "details");
    var head := [Header(project, title, typ)];
    var withBy := head + (if Truthy(author) then ["by **" + Show(author) + "**"] else []);
    if Truthy(url) && !url.Str? then Failure(NotText("url"))
    else
      var withUrl := withBy + (if Truthy(url) then [url.s] else []);
      if Truthy(details) && !details.Str? then Failure(NotText("details"))
      else Success(withUrl + (if Truthy(details) then [CapDetails(details.s)] else []))
  }

  /** `_format_message(project, ev)`: the header, then `by **…**` when the
      author is truthy, the URL when truthy, and the details (capped) when
      truthy, joined by newlines. */
  function FormatMessage(project: string, ev: Event): (r: Result<string, FormatError>)
    ensures r.Failure? <==>
      (Truthy(Get(ev, "url")) && !Get(ev, "url").Str?) || (Truthy(Get(ev, "details")) && !Get(ev, "details").Str?)
    ensures r.Success? ==>
      StartsWith(r.value, Header(project, Either(Get(ev, "title"), Str("Update")), Either(Get(ev, "type"), Str("update"))))
  {
    match MessageLines(project, ev)
    case Failure(e) => Failure(e)
    case Success(lines) =>
      JoinFirst(lines, '\n');
      Success(Strings.Join(lines, '\n'))
  }

  /** The lines of a message, as `_format_message` promises them: the
      header, then `by **…**` for a truthy author, the URL when truthy, and
      the capped details when truthy. */
  function Pieces(project: string, ev: Event): seq<string>
    requires !Truthy(Get(ev, "url")) || Get(ev, "url").Str?
    requires !Truthy(Get(ev, "details")) || Get(ev, "details").Str?
  {
    var author := Get(ev, "by");
    var url := Get(ev, "url");
    var details := Get(ev, "details");
    [Header(project, Either(Get(ev, "title"), Str("Update")), Either(Get(ev, "type"), Str("update")))]
    + (if Truthy(author) then ["by **" + Show(author) + "**"] else [])
    + (if Truthy(url) then [url.s] else [])
    + (if Truthy(details) then [CapDetails(details.s)] else [])
  }

  /** A message is its pieces joined by newlines, so when no piece holds a
      newline, splitting the message at newlines gives the pieces back; it
      ends with the capped details when there are some, and is the header
      alone when author, URL and details are all falsy. */
  lemma FormatMessageSpec(project: string, ev: Event)
    ensures FormatMessage(project, ev).Success? ==>
      FormatMessage(project, ev).value == Strings.Join(Pieces(project, ev), '\n')
    ensures FormatMessage(project, ev).Success? ==>
      FormatMessage(project, ev).value
      == Strings.Join(
           [Header(project, Either(Get(ev, "title"), Str("Update")), Either(Get(ev, "type"), Str("update")))]
           + (if Truthy(Get(ev, "by")) then ["by **" + Show(Get(ev, "by")) + "**"] else [])
           + (if Truthy(Get(ev, "url")) then [Get(ev, "url").s] else [])
           + (if Truthy(Get(ev, "details")) then [CapDetails(Get(ev, "details").s)] else []),
           '\n')
    ensures FormatMessage(project, ev).Success? && (forall i :: 0 <= i < |Pieces(project, ev)| ==> '\n' !in Pieces(project, ev)[i]) ==>
      Split(FormatMessage(project, ev).value, '\n') == Pieces(project, ev)
    ensures FormatMessage(project, ev).Success? && Truthy(Get(ev, "details")) ==>
      EndsWith(FormatMessage(project, ev).value, CapDetails(Get(ev, "details").s))
    ensures FormatMessage(project, ev).Success? && !Truthy(Get(ev, "by")) && !Truthy(Get(ev, "url")) && !Truthy(Get(ev, "details")) ==>
      FormatMessage(project, ev).value == Header(project, Either(Get(ev, "title"), Str("Update")), Either(Get(ev, "type"), Str("update")))
  {
    match MessageLines(project, ev)
    case Failure(e) =>
    case Success(lines) =>
      assert lines == Pieces(project, ev);
      JoinLast(lines, '\n');
      if forall i :: 0 <= i < |lines| ==> '\n' !in lines[i] {
        SplitJoin(lines, '\n');
      }
  }

  lemma {:induction false} JoinFirst(lines: seq<string>, sep: char)
    requires |lines| >= 1
    ensures StartsWith(Strings.Join(lines, sep), lines[0])
  {
    if |lines| > 1 {
      JoinFirst(lines[1..], sep);
    }
  }

  lemma {:induction false} JoinLast(lines: seq<string>, sep: char)
    requires |lines| >= 1
    ensures EndsWith(Strings.Join(lines, sep), lines[|lines| - 1])
  {
    if |lines| > 1 {
      JoinLast(lines[1..], sep);
    }
  }
}
