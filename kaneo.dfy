/** The stateful part of the Kaneo integration (`src/modules/kaneo/cog.py`):
    the per-guild configuration map updated by the setup, link and unlink
    commands, the feed dispatch of one fetch, and the cursor bookkeeping of one
    poll. Network replies, the login result and the probed feed path are
    inputs. */
module Kaneo {
  import opened Wrappers
  import opened Strings
  import opened Json
  import opened KaneoHelpers

  /** The body Kaneo sends to a request without a session. */
  const NullUser := "{\"user\":null}"
  const PostMark := "POST"
  const SlugMark := "{slug}"
  const ProjectMark := "{project}"
  const MinPollSec := 10

  // ---------------------------------------------------------------- quoting

  /** The characters `quote(s, safe="")` leaves alone. */
  predicate Unreserved(c: char) {
    ('A' <= c <= 'Z') || ('a' <= c <= 'z') || ('0' <= c <= '9') || c == '_' || c == '.' || c == '-' || c == '~'
  }

  /** The UTF-8 bytes of one character. */
  function Utf8(c: char): (bs: seq<int>)
    ensures 1 <= |bs| <= 4
    ensures forall i :: 0 <= i < |bs| ==> 0 <= bs[i] < 256
    ensures (c as int) < 0x80 ==> bs == [c as int]
  {
    var cp := c as int;
    if cp < 0x80 then [cp]
    else if cp < 0x800 then [0xC0 + cp / 64, 0x80 + cp % 64]
    else if cp < 0x10000 then [0xE0 + cp / 4096, 0x80 + (cp / 64) % 64, 0x80 + cp % 64]
    else [0xF0 + cp / 262144, 0x80 + (cp / 4096) % 64, 0x80 + (cp / 64) % 64, 0x80 + cp % 64]
  }

  /** An upper-case hexadecimal digit. */
  function HexDigit(n: int): (c: char)
    requires 0 <= n < 16
    ensures Unreserved(c)
  {
    if n < 10 then ('0' as int + n) as char else ('A' as int + n - 10) as char
  }

  /** `%XX` for each byte. */
  function PercentBytes(bs: seq<int>): (r: string)
    requires forall i :: 0 <= i < |bs| ==> 0 <= bs[i] < 256
    ensures |r| == 3 * |bs|
    ensures forall i :: 0 <= i < |r| ==> r[i] == '%' || Unreserved(r[i])
  {
    if bs == [] then []
    else ['%', HexDigit(bs[0] / 16), HexDigit(bs[0] % 16)] + PercentBytes(bs[1..])
  }

  /** `quote(s, safe="")` */
  function Quote(s: string): (r: string)
    ensures |r| >= |s|
    ensures forall i :: 0 <= i < |r| ==> r[i] == '%' || Unreserved(r[i])
  {
    if s == [] then []
    else (if Unreserved(s[0]) then [s[0]] else PercentBytes(Utf8(s[0]))) + Quote(s[1..])
  }

  /** Quoting works character by character. */
  lemma {:induction false} QuoteAppend(a: string, b: string)
    ensures Quote(a + b) == Quote(a) + Quote(b)
  {
    if a == [] {
      assert a + b == b;
    } else {
      assert (a + b)[0] == a[0];
      assert (a + b)[1..] == a[1..] + b;
      QuoteAppend(a[1..], b);
    }
  }

  /** A slug of unreserved characters is used as it is. */
  lemma {:induction false} QuoteUnreserved(s: string)
    requires forall i :: 0 <= i < |s| ==> Unreserved(s[i])
    ensures Quote(s) == s
  {
    if s != [] {
      QuoteUnreserved(s[1..]);
    }
  }

  /** The value of a hexadecimal digit of either case, -1 for any other
      character. */
  function HexValue(c: char): (n: int)
    ensures -1 <= n < 16
  {
    if '0' <= c <= '9' then c as int - '0' as int
    else if 'A' <= c <= 'F' then c as int - 'A' as int + 10
    else if 'a' <= c <= 'f' then c as int - 'a' as int + 10
    else -1
  }

  /** `%XX` escapes become their byte; any other character stands for its
      own code. */
  function PercentDecode(r: string): seq<int> {
    if r == [] then []
    else if r[0] == '%' && |r| >= 3 && HexValue(r[1]) >= 0 && HexValue(r[2]) >= 0 then
      [HexValue(r[1]) * 16 + HexValue(r[2])] + PercentDecode(r[3..])
    else [r[0] as int] + PercentDecode(r[1..])
  }

  /** A Unicode scalar value: a code point that is not a surrogate. */
  predicate IsScalar(cp: int) {
    0 <= cp < 0xD800 || 0xE000 <= cp < 0x11_0000
  }

  /** The number of bytes of a UTF-8 sequence, read off its first byte. */
  function SequenceLength(lead: int): (n: nat)
    ensures 1 <= n <= 4
  {
    if lead < 0x80 then 1 else if lead < 0xE0 then 2 else if lead < 0xF0 then 3 else 4
  }

  /** The code point a UTF-8 sequence of one to four bytes carries. */
  function CodePoint(bs: seq<int>): int
    requires 1 <= |bs| <= 4
  {
    if |bs| == 1 then bs[0]
    else if |bs| == 2 then (bs[0] - 0xC0) * 64 + (bs[1] - 0x80)
    else if |bs| == 3 then (bs[0] - 0xE0) * 4096 + (bs[1] - 0x80) * 64 + (bs[2] - 0x80)
    else (bs[0] - 0xF0) * 262144 + (bs[1] - 0x80) * 4096 + (bs[2] - 0x80) * 64 + (bs[3] - 0x80)
  }

  /** UTF-8 decoding; `None` for a truncated sequence or one that carries
      no scalar value. */
  function Utf8Decode(bs: seq<int>): Option<string>
    decreases |bs|
  {
    if bs == [] then Some([])
    else
      var n := SequenceLength(bs[0]);
      if |bs| < n || !IsScalar(CodePoint(bs[..n])) then None
      else
        match Utf8Decode(bs[n..])
        case None => None
        case Some(rest) => Some([CodePoint(bs[..n]) as char] + rest)
  }

  /** The UTF-8 bytes of a text. */
  function Utf8Bytes(s: string): seq<int> {
    if s == [] then [] else Utf8(s[0]) + Utf8Bytes(s[1..])
  }

  /** The inverse of `quote`: percent-decoding, then UTF-8 decoding. */
  function Unquote(r: string): Option<string> {
    Utf8Decode(PercentDecode(r))
  }

  /** A character's UTF-8 bytes announce their own length and carry the
      character's code point. */
  lemma Utf8CodePoint(c: char)
    ensures SequenceLength(Utf8(c)[0]) == |Utf8(c)|
    ensures CodePoint(Utf8(c)) == c as int
  {
    var cp := c as int;
    if cp >= 0x10000 {
      var q := cp / 64;
      var q2 := q / 64;
      assert cp == q * 64 + cp % 64;
      assert q == q2 * 64 + q % 64;
      assert cp / 4096 == q2;
      assert q2 == (q2 / 64) * 64 + q2 % 64;
      assert cp / 262144 == q2 / 64;
      assert (cp / 4096) % 64 == q2 % 64;
    } else if cp >= 0x800 {
      var q := cp / 64;
      assert cp == q * 64 + cp % 64;
      assert q == (q / 64) * 64 + q % 64;
      assert cp / 4096 == q / 64;
    }
  }

  /** Decoding a character's bytes gives the character, then the rest. */
  lemma Utf8DecodeChar(c: char, rest: seq<int>)
    ensures Utf8Decode(Utf8(c) + rest) ==
      if Utf8Decode(rest).Some? then Some([c] + Utf8Decode(rest).value) else None
  {
    var bs := Utf8(c) + rest;
    var n := |Utf8(c)|;
    Utf8CodePoint(c);
    assert bs[0] == Utf8(c)[0];
    assert bs[..n] == Utf8(c);
    assert bs[n..] == rest;
  }

  /** UTF-8 decoding undoes UTF-8 encoding. */
  lemma {:induction false} Utf8RoundTrip(s: string)
    ensures Utf8Decode(Utf8Bytes(s)) == Some(s)
  {
    if s != [] {
      Utf8RoundTrip(s[1..]);
      Utf8DecodeChar(s[0], Utf8Bytes(s[1..]));
      assert s == [s[0]] + s[1..];
    }
  }

  lemma HexValueDigit(n: int)
    requires 0 <= n < 16
    ensures HexValue(HexDigit(n)) == n
  {
  }

  /** One `%XX` escape decodes to its byte. */
  lemma PercentDecodeEscape(b: int, tail: string)
    requires 0 <= b < 256
    ensures PercentDecode(['%', HexDigit(b / 16), HexDigit(b % 16)] + tail) == [b] + PercentDecode(tail)
  {
    var hi, lo := HexDigit(b / 16), HexDigit(b % 16);
    HexValueDigit(b / 16);
    HexValueDigit(b % 16);
    var t := ['%', hi, lo] + tail;
    assert t[0] == '%' && t[1] == hi && t[2] == lo && t[3..] == tail;
  }

  /** Percent-decoding the escapes of some bytes gives those bytes back. */
  lemma {:induction false} PercentDecodeBytes(bs: seq<int>, rest: string)
    requires forall i :: 0 <= i < |bs| ==> 0 <= bs[i] < 256
    ensures PercentDecode(PercentBytes(bs) + rest) == bs + PercentDecode(rest)
  {
    if bs == [] {
      assert PercentBytes(bs) + rest == rest;
    } else {
      var b, more := bs[0], bs[1..];
      PercentBytesCons(bs, rest);
      PercentDecodeEscape(b, PercentBytes(more) + rest);
      PercentDecodeBytes(more, rest);
      assert bs == [b] + more;
      AppendAssociative([b], more, PercentDecode(rest));
    }
  }

  /** The escapes of some bytes, then more text, start with the first
      byte's escape. */
  lemma PercentBytesCons(bs: seq<int>, rest: string)
    requires bs != [] && forall i :: 0 <= i < |bs| ==> 0 <= bs[i] < 256
    ensures PercentBytes(bs) + rest ==
      ['%', HexDigit(bs[0] / 16), HexDigit(bs[0] % 16)] + (PercentBytes(bs[1..]) + rest)
  {
    var escape := ['%', HexDigit(bs[0] / 16), HexDigit(bs[0] % 16)];
    assert PercentBytes(bs) == escape + PercentBytes(bs[1..]);
    AppendAssociative(escape, PercentBytes(bs[1..]), rest);
  }

  lemma AppendAssociative<T>(a: seq<T>, b: seq<T>, c: seq<T>)
    ensures (a + b) + c == a + (b + c)
  {
  }

  /** Percent-decoding a quoted text gives its UTF-8 bytes. */
  lemma {:induction false} PercentDecodeQuote(s: string)
    ensures PercentDecode(Quote(s)) == Utf8Bytes(s)
  {
    if s != [] {
      var c := s[0];
      PercentDecodeQuote(s[1..]);
      if Unreserved(c) {
        var t := [c] + Quote(s[1..]);
        assert t[1..] == Quote(s[1..]);
      } else {
        PercentDecodeBytes(Utf8(c), Quote(s[1..]));
      }
    }
  }

  /** Decoding a quoted text gives the text back, so no two texts quote
      alike. */
  lemma QuoteRoundTrip(s: string)
    ensures Unquote(Quote(s)) == Some(s)
  {
    PercentDecodeQuote(s);
    Utf8RoundTrip(s);
  }

  /** Two texts with the same quoted form are the same text. */
  lemma QuoteInjective(a: string, b: string)
    requires Quote(a) == Quote(b)
    ensures a == b
  {
    QuoteRoundTrip(a);
    QuoteRoundTrip(b);
  }

  // ---------------------------------------------------------- feed dispatch

  /** One HTTP reply: status, parsed body (the text itself when it is not
      JSON) and raw text. A failed request is `Reply(0, Null, "")`. */
  datatype Reply = Reply(status: int, data: Value, raw: string)

  /** A request to the Kaneo API, relative to the base URL and prefix; the
      parameters are in insertion order. */
  datatype Request =
    | GetRequest(path: string, params: seq<(string, string)>)
    | PostRequest(path: string, body: seq<(string, string)>)
  {
    function Fields(): seq<(string, string)> {
      if GetRequest? then params else body
    }
  }

  /** `feed.split(" ", 1)[1]` on a feed without a space. */
  datatype DispatchError = NoPostPath

  /** `if since:` */
  predicate SinceGiven(since: Option<string>) {
    since.Some? && since.value != []
  }

  /** The request `_fetch_events` sends for a cached feed path. */
  function ChooseRequest(feed: string, project: string, since: Option<string>): (r: Result<Request, DispatchError>)
    ensures r.Failure? <==> StartsWith(feed, PostMark) && ' ' !in feed
    ensures r.Success? ==> (r.value.PostRequest? <==> StartsWith(feed, PostMark))
    ensures r.Success? && ('?' in feed || StartsWith(feed, PostMark)) ==>
      |r.value.Fields()| >= 1 && r.value.Fields()[0] == ("project", project)
    ensures r.Success? && SinceGiven(since) ==> ("since", since.value) in r.value.Fields()
    ensures r.Success? && !SinceGiven(since) ==> forall i :: 0 <= i < |r.value.Fields()| ==> r.value.Fields()[i].0 == "project"
  {
    var s := if SinceGiven(since) then since.value else "";
    if !StartsWith(feed, PostMark) && '?' !in feed then
      var path := Replace(Replace(feed, SlugMark, Quote(project)), ProjectMark, project);
      Success(GetRequest(path, if SinceGiven(since) then [("since", s), ("updated_since", s), ("cursor", s)] else []))
    else if !StartsWith(feed, PostMark) then
      Success(GetRequest(feed[..IndexOf(feed, '?')], [("project", project)] + (if SinceGiven(since) then [("since", s)] else [])))
    else if ' ' !in feed then
      Failure(NoPostPath)
    else
      var body := [("project", project)] + (if SinceGiven(since) then [("since", s), ("updated_since", s)] else []);
      Success(PostRequest(feed[IndexOf(feed, ' ') + 1..], body))
  }

  /** A feed `POST <path>` posts to the text after the first space. */
  lemma PostDispatch(head: string, path: string, project: string, since: Option<string>)
    requires StartsWith(head, PostMark) && ' ' !in head
    ensures ChooseRequest(head + " " + path, project, since).Success?
    ensures ChooseRequest(head + " " + path, project, since).value.PostRequest?
    ensures ChooseRequest(head + " " + path, project, since).value.path == path
  {
    var feed := head + " " + path;
    assert feed[..|PostMark|] == head[..|PostMark|];
    assert feed[|head|] == ' ';
    assert forall j :: 0 <= j < |head| ==> feed[j] == head[j];
    var k := IndexOf(feed, ' ');
    assert k == |head|;
    assert feed[k + 1..] == path;
  }

  /** A feed `<path>?<query>` is a GET to the part before the `?`, with the
      project as a parameter. */
  lemma QueryDispatch(head: string, query: string, project: string, since: Option<string>)
    requires '?' !in head && !StartsWith(head, PostMark)
    ensures ChooseRequest(head + "?" + query, project, since).Success?
    ensures ChooseRequest(head + "?" + query, project, since).value.GetRequest?
    ensures ChooseRequest(head + "?" + query, project, since).value.path == head
    ensures ChooseRequest(head + "?" + query, project, since).value.params[0] == ("project", project)
  {
    var feed := head + "?" + query;
    assert feed[|head|] == '?';
    assert !StartsWith(feed, PostMark) by {
      if |head| >= |PostMark| {
        assert feed[..|PostMark|] == head[..|PostMark|];
      } else {
        assert PostMark[|head|] != '?';
      }
    }
    assert forall j :: 0 <= j < |head| ==> feed[j] == head[j];
    var k := IndexOf(feed, '?');
    assert k == |head|;
    assert feed[..k] == head;
  }

  /** A plain feed without placeholders is requested as it is. */
  lemma PlainDispatch(feed: string, project: string, since: Option<string>)
    requires !StartsWith(feed, PostMark) && '?' !in feed
    requires !Contains(feed, SlugMark) && !Contains(feed, ProjectMark)
    ensures ChooseRequest(feed, project, since).Success?
    ensures ChooseRequest(feed, project, since).value == GetRequest(feed, ChooseRequest(feed, project, since).value.params)
  {
    ReplaceAbsent(feed, SlugMark, Quote(project));
    ReplaceAbsent(feed, ProjectMark, project);
  }

  /** A reply that counts as a failed feed call. */
  predicate FailedReply(reply: Reply) {
    reply.status != 200 || Strip(reply.raw) == NullUser
  }

  /** What a fetch can raise: the dispatch's `IndexError` or the `TypeError`
      of normalising a non-iterable `events` value. */
  datatype FetchError = BadFeed | BadEvents

  /** `m.get(p)` */
  function Entry(m: map<string, string>, p: string): (r: Option<string>)
    ensures r.Some? <==> p in m
    ensures r.Some? ==> r.value == m[p]
  {
    if p in m then Some(m[p]) else None
  }

  /** The cached feed path of a project, `""` when there is none. */
  function CachedFeed(cfg: GuildConfig, project: string): (r: string)
    ensures r != [] ==> project in OrEmpty(cfg.feed) && OrEmpty(cfg.feed)[project] == r
    ensures project !in OrEmpty(cfg.feed) ==> r == []
  {
    var feeds := OrEmpty(cfg.feed);
    if project in feeds then feeds[project] else ""
  }

  /** The feed path `_fetch_events` uses, given the project's cache entry
      and the probed path: a non-empty cached path, else the probed one. */
  function FeedPath(cached: Option<string>, probed: Option<string>): string {
    if cached.Some? && cached.value != [] then cached.value else TextOr(probed)
  }

  /** The project's cache entry after `_fetch_events`: unchanged when no
      path was found, dropped when the call failed, else the path used. */
  function FeedEntryAfter(cached: Option<string>, probed: Option<string>, project: string,
                          since: Option<string>, reply: Reply): Option<string>
  {
    var feed := FeedPath(cached, probed);
    if feed == [] then cached
    else if ChooseRequest(feed, project, since).Success? && FailedReply(reply) then None
    else Some(feed)
  }

  /** The events `_fetch_events` hands to the poll: the normalised reply
      when a path was found, the request could be built, the call did not
      fail and the reply normalises; none otherwise (the poll skips a fetch
      that raised). */
  function FetchedEvents(cached: Option<string>, probed: Option<string>, project: string,
                         since: Option<string>, reply: Reply): seq<Event>
  {
    var feed := FeedPath(cached, probed);
    if feed == [] || ChooseRequest(feed, project, since).Failure? || FailedReply(reply) then []
    else
      match NormalizeEvents(reply.data)
      case Success(events) => events
      case Failure(_) => []
  }

  // ------------------------------------------------------------- messages

  /** The messages of a batch that format without raising, in order. */
  function FormattedBatch(project: string, events: seq<Event>): (r: seq<string>)
    ensures |r| <= |events|
  {
    if events == [] then []
    else
      var rest := FormattedBatch(project, events[1..]);
      match FormatMessage(project, events[0])
      case Success(m) => [m] + rest
      case Failure(_) => rest
  }

  lemma {:induction false} FormattedBatchSnoc(project: string, events: seq<Event>, ev: Event)
    ensures FormattedBatch(project, events + [ev]) ==
      FormattedBatch(project, events) + (if FormatMessage(project, ev).Success? then [FormatMessage(project, ev).value] else [])
  {
    if events == [] {
      assert events + [ev] == [ev];
    } else {
      assert (events + [ev])[0] == events[0];
      assert (events + [ev])[1..] == events[1..] + [ev];
      FormattedBatchSnoc(project, events[1..], ev);
    }
  }

  /** `str(ev.get("id") or ev.get("timestamp") or ev.get("ts") or ev.get("updated_at") or "")` */
  function Cursor(ev: Event): string {
    Show(CursorValue(ev))
  }

  function CursorValue(ev: Event): Value {
    if Truthy(Get(ev, "id")) then Get(ev, "id")
    else if Truthy(Get(ev, "timestamp")) then Get(ev, "timestamp")
    else if Truthy(Get(ev, "ts")) then Get(ev, "ts")
    else if Truthy(Get(ev, "updated_at")) then Get(ev, "updated_at")
    else Str("")
  }

  /** An event has a cursor exactly when one of its `id`, `timestamp`, `ts`
      and `updated_at` values is truthy, and the cursor is the text of the
      first of them. */
  lemma CursorSpec(ev: Event)
    ensures Cursor(ev) != [] <==>
      Truthy(Get(ev, "id")) || Truthy(Get(ev, "timestamp")) || Truthy(Get(ev, "ts")) || Truthy(Get(ev, "updated_at"))
    ensures Truthy(Get(ev, "id")) ==> Cursor(ev) == Show(Get(ev, "id"))
  {
    var v := CursorValue(ev);
    assert v.Int? ==> IntToString(v.i) != [];
  }

  /** The cursor of the last event that has one. */
  function LastCursor(events: seq<Event>): (c: Option<string>)
    ensures c.Some? ==> c.value != []
  {
    if events == [] then None
    else if Cursor(events[|events| - 1]) != [] then Some(Cursor(events[|events| - 1]))
    else LastCursor(events[..|events| - 1])
  }

  /** No event after position `i` has a cursor. */
  predicate NoCursorAfter(events: seq<Event>, i: nat) {
    forall j :: i < j < |events| ==> Cursor(events[j]) == []
  }

  /** A batch has no cursor exactly when none of its events has one. */
  lemma {:induction false} LastCursorNone(events: seq<Event>)
    ensures LastCursor(events).None? <==> forall i :: 0 <= i < |events| ==> Cursor(events[i]) == []
  {
    if events != [] && Cursor(events[|events| - 1]) == [] {
      var init := events[..|events| - 1];
      LastCursorNone(init);
      assert forall i :: 0 <= i < |init| ==> init[i] == events[i];
    }
  }

  /** A batch's cursor is that of an event after which no event has one. */
  lemma {:induction false} LastCursorLatest(events: seq<Event>)
    ensures LastCursor(events).Some? ==>
      exists i :: 0 <= i < |events| && Cursor(events[i]) == LastCursor(events).value && NoCursorAfter(events, i)
  {
    if events == [] {
    } else if Cursor(events[|events| - 1]) != [] {
      assert NoCursorAfter(events, |events| - 1);
    } else {
      var init := events[..|events| - 1];
      LastCursorLatest(init);
      if LastCursor(init).Some? {
        var i :| 0 <= i < |init| && Cursor(init[i]) == LastCursor(init).value && NoCursorAfter(init, i);
        assert init[i] == events[i];
        forall j | i < j < |events| ensures Cursor(events[j]) == [] {
          if j < |init| {
            assert events[j] == init[j];
          }
        }
        assert NoCursorAfter(events, i);
      }
    }
  }

  /** The batch's cursor is that of its last event with a cursor, and there
      is none when no event has one. */
  lemma LastCursorSpec(events: seq<Event>)
    ensures LastCursor(events).None? <==> forall i :: 0 <= i < |events| ==> Cursor(events[i]) == []
    ensures LastCursor(events).Some? ==>
      exists i :: 0 <= i < |events| && Cursor(events[i]) == LastCursor(events).value && NoCursorAfter(events, i)
  {
    LastCursorNone(events);
    LastCursorLatest(events);
  }

  /** One more event: its formatted message and cursor come last. */
  lemma SnocStep(project: string, events: seq<Event>, i: nat)
    requires i < |events|
    ensures FormattedBatch(project, events[..i + 1]) ==
      FormattedBatch(project, events[..i]) + (if FormatMessage(project, events[i]).Success? then [FormatMessage(project, events[i]).value] else [])
    ensures LastCursor(events[..i + 1]) == if Cursor(events[i]) != [] then Some(Cursor(events[i])) else LastCursor(events[..i])
  {
    assert events[..i + 1] == events[..i] + [events[i]];
    FormattedBatchSnoc(project, events[..i], events[i]);
    assert events[..i + 1][..i] == events[..i];
  }

  /** Storing a batch's cursor finishes that project and touches no other. */
  lemma SinceAfterDone(before: map<string, string>, project: string, events: seq<Event>)
    ensures Done(before, SinceAfter(before, project, events), project, events)
    ensures forall p :: p != project ==> Untouched(before, SinceAfter(before, project, events), p)
  {
  }

  /** The loop of `_poll_guild` over one batch: every event that formats is
      sent, and after each event with a cursor that cursor is stored. */
  method SendBatch(project: string, events: seq<Event>, since0: Option<map<string, string>>)
    returns (posted: seq<string>, since: Option<map<string, string>>)
    ensures posted == FormattedBatch(project, events)
    ensures OrEmpty(since) == SinceAfter(OrEmpty(since0), project, events)
    ensures since0.Some? ==> since.Some?
  {
    since := since0;
    posted := [];
    var i := 0;
    assert events[..i] == [];
    assert posted == FormattedBatch(project, events[..i]);
    assert OrEmpty(since) == SinceAfter(OrEmpty(since0), project, events[..i]);
    while i < |events|
      invariant 0 <= i <= |events|
      invariant posted == FormattedBatch(project, events[..i])
      invariant OrEmpty(since) == SinceAfter(OrEmpty(since0), project, events[..i])
      invariant since0.Some? ==> since.Some?
    {
      var ev := events[i];
      SnocStep(project, events, i);
      var message := FormatMessage(project, ev);
      if message.Success? {
        posted := posted + [message.value];
      }
      assert posted == FormattedBatch(project, events[..i + 1]);
      var cursor := Cursor(ev);
      if cursor != [] {
        UpdateTwice(OrEmpty(since0), project, LastCursor(events[..i]), cursor);
        since := Some(OrEmpty(since)[project := cursor]);
      }
      assert OrEmpty(since) == SinceAfter(OrEmpty(since0), project, events[..i + 1]);
      i := i + 1;
    }
    assert events[..i] == events;
  }

  /** A second update of a guild's entry replaces the first. */
  lemma UpdateTwiceAt(m: map<int, GuildConfig>, gid: int, first: GuildConfig, second: GuildConfig)
    ensures m[gid := first][gid := second] == m[gid := second]
  {
  }

  /** A second cursor replaces the first. */
  lemma UpdateTwice(m: map<string, string>, project: string, first: Option<string>, cursor: string)
    ensures (if first.Some? then m[project := first.value] else m)[project := cursor] == m[project := cursor]
  {
  }

  /** The stored cursor after a batch: the batch's last cursor, else the
      previous one. */
  function SinceAfter(since: map<string, string>, project: string, events: seq<Event>): map<string, string> {
    if LastCursor(events).Some? then since[project := LastCursor(events).value] else since
  }

  // ------------------------------------------------------------------ cog

  datatype LinkOutcome = NotSetUp | LoginFailed | NoSuchProject | Linked

  /** `_login_if_needed` only signs in when both email and password are set. */
  predicate NeedsLogin(cfg: GuildConfig) {
    cfg.email != [] && cfg.password != []
  }

  /** `max(10, poll_sec or DEFAULT_POLL_SEC)` */
  function PollInterval(pollSec: Option<int>): (p: int)
    ensures p >= MinPollSec
    ensures pollSec.None? || pollSec == Some(0) ==> p == DefaultPollSec
    ensures pollSec.Some? && pollSec.value >= MinPollSec ==> p == pollSec.value
    ensures pollSec.Some? && pollSec.value != 0 && pollSec.value < MinPollSec ==> p == MinPollSec
  {
    var p := if pollSec.None? || pollSec.value == 0 then DefaultPollSec else pollSec.value;
    if p < MinPollSec then MinPollSec else p
  }

  /** `x or ""` for an optional text argument. */
  function TextOr(x: Option<string>): string {
    if x.Some? then x.value else ""
  }

  /** The Kaneo cog's state: one configuration per guild id. */
  class KaneoCog {
    var configs: map<int, GuildConfig>

    constructor()
      ensures configs == map[]
    {
      configs := map[];
    }

    /** `kaneo_setup`: when the connectivity check (an input) passes, the
        connection fields are replaced and routes, cursors and cached feeds
        kept; otherwise nothing changes. */
    method Setup(gid: int, baseUrl: string, pathPrefix: Option<string>, email: Option<string>,
                 password: Option<string>, pollSec: Option<int>, reachable: bool) returns (ok: bool)
      modifies this
      ensures ok == reachable
      ensures !reachable ==> configs == old(configs)
      ensures reachable ==>
        var before := if gid in old(configs) then old(configs)[gid] else DefaultConfig();
        configs == old(configs)[gid := before.(
          baseUrl := NormalizeBase(baseUrl), pathPrefix := Strip(TextOr(pathPrefix)),
          email := Strip(TextOr(email)), password := TextOr(password), pollSec := PollInterval(pollSec))]
      ensures reachable ==> configs[gid].pollSec >= MinPollSec
    {
      if !reachable {
        return false;
      }
      var cfg := if gid in configs then configs[gid] else DefaultConfig();
      cfg := cfg.(baseUrl := NormalizeBase(baseUrl), pathPrefix := Strip(TextOr(pathPrefix)),
                  email := Strip(TextOr(email)), password := TextOr(password), pollSec := PollInterval(pollSec));
      configs := configs[gid := cfg];
      return true;
    }

    /** `kaneo_link`: with a configured base URL, a successful login (when
        credentials are set) and an existing project (both inputs), routes
        the project to the channel and forgets its cached feed. */
    method Link(gid: int, project: string, channel: int, loginOk: bool, found: bool) returns (outcome: LinkOutcome)
      modifies this
      ensures outcome == NotSetUp <==> gid !in old(configs) || old(configs)[gid].baseUrl == []
      ensures outcome == LoginFailed ==> NeedsLogin(old(configs)[gid]) && !loginOk
      ensures outcome == NoSuchProject ==> !found
      ensures outcome != Linked ==> configs == old(configs)
      ensures outcome == Linked <==>
        gid in old(configs) && old(configs)[gid].baseUrl != [] && (loginOk || !NeedsLogin(old(configs)[gid])) && found
      ensures outcome == Linked ==>
        var before := old(configs)[gid];
        configs == old(configs)[gid := before.(
          routes := Some(OrEmpty(before.routes)[project := channel]),
          feed := Some(OrEmpty(before.feed) - {project}))]
    {
      if gid !in configs || configs[gid].baseUrl == [] {
        return NotSetUp;
      }
      var cfg := configs[gid];
      if NeedsLogin(cfg) && !loginOk {
        return LoginFailed;
      }
      if !found {
        return NoSuchProject;
      }
      var routes := OrEmpty(cfg.routes);
      var feeds := OrEmpty(cfg.feed);
      cfg := cfg.(routes := Some(routes[project := channel]), feed := Some(feeds - {project}));
      configs := configs[gid := cfg];
      return Linked;
    }

    /** `kaneo_unlink`: a linked project loses its route and its cached feed;
        for anything else nothing changes. */
    method Unlink(gid: int, project: string) returns (removed: bool)
      modifies this
      ensures removed <==> gid in old(configs) && project in OrEmpty(old(configs)[gid].routes)
      ensures !removed ==> configs == old(configs)
      ensures removed ==>
        var before := old(configs)[gid];
        configs == old(configs)[gid := before.(
          routes := Some(OrEmpty(before.routes) - {project}),
          feed := if OrEmpty(before.feed) != map[] then Some(OrEmpty(before.feed) - {project}) else before.feed)]
    {
      var cfg := if gid in configs then configs[gid] else DefaultConfig();
      var routes := OrEmpty(cfg.routes);
      if project !in routes {
        return false;
      }
      var feed := cfg.feed;
      if OrEmpty(feed) != map[] {
        feed := Some(OrEmpty(feed) - {project});
      }
      cfg := cfg.(routes := Some(routes - {project}), feed := feed);
      configs := configs[gid := cfg];
      return true;
    }

    /** `_fetch_events(cfg, project, since)` for the guild `gid`: uses the
        cached feed path, or else the probed one (an input), which is then
        cached; sends the request `ChooseRequest` picks, whose reply is an
        input; a failed reply drops the cached feed. Only the guild's cached
        feeds change. */
    method FetchEvents(gid: int, project: string, since: Option<string>, probed: Option<string>, reply: Reply)
      returns (sent: Option<Request>, r: Result<seq<Event>, FetchError>)
      requires gid in configs
      modifies this
      ensures gid in configs && configs == old(configs)[gid := old(configs)[gid].(feed := configs[gid].feed)]
      ensures configs[gid].feed.Some?
      ensures
        var before := OrEmpty(old(configs)[gid].feed);
        var cached := CachedFeed(old(configs)[gid], project);
        var feed := if cached != [] then cached else TextOr(probed);
        && (feed == [] ==> sent.None? && r == Success([]) && configs[gid].feed.value == before)
        && (feed != [] && ChooseRequest(feed, project, since).Failure? ==>
              sent.None? && r == Failure(BadFeed) && configs[gid].feed.value == before[project := feed])
        && (feed != [] && ChooseRequest(feed, project, since).Success? ==>
              sent == Some(ChooseRequest(feed, project, since).value))
        && (sent.Some? && FailedReply(reply) ==>
              r == Success([]) && configs[gid].feed.value == before - {project})
        && (sent.Some? && !FailedReply(reply) ==>
              configs[gid].feed.value == before[project := feed]
              && (r.Failure? <==> NormalizeEvents(reply.data).Failure?)
              && (r.Success? ==> r.value == NormalizeEvents(reply.data).value))
      ensures
        var cached := Entry(OrEmpty(old(configs)[gid].feed), project);
        && Entry(configs[gid].feed.value, project) == FeedEntryAfter(cached, probed, project, since, reply)
        && (forall p :: p != project ==> Entry(configs[gid].feed.value, p) == Entry(OrEmpty(old(configs)[gid].feed), p))
        && (r.Success? ==> r.value == FetchedEvents(cached, probed, project, since, reply))
        && (r.Failure? ==> FetchedEvents(cached, probed, project, since, reply) == [])
    {
      var cfg := configs[gid];
      var feeds := OrEmpty(cfg.feed);
      var feed := CachedFeed(cfg, project);
      if feed == [] {
        if TextOr(probed) != [] {
          feed := probed.value;
          feeds := feeds[project := feed];
        } else {
          configs := configs[gid := cfg.(feed := Some(feeds))];
          return None, Success([]);
        }
      }
      var req := ChooseRequest(feed, project, since);
      if req.Failure? {
        configs := configs[gid := cfg.(feed := Some(feeds))];
        return None, Failure(BadFeed);
      }
      sent := Some(req.value);
      if FailedReply(reply) {
        configs := configs[gid := cfg.(feed := Some(feeds - {project}))];
        return sent, Success([]);
      }
      configs := configs[gid := cfg.(feed := Some(feeds))];
      match NormalizeEvents(reply.data)
      case Failure(_) => r := Failure(BadEvents);
      case Success(events) => r := Success(events);
    }

    /** Posts a fetched batch to its channel and stores its cursor. */
    method PostBatch(gid: int, project: string, events: seq<Event>) returns (posted: seq<string>)
      requires gid in configs
      modifies this
      ensures gid in configs && configs == old(configs)[gid := old(configs)[gid].(since := configs[gid].since)]
      ensures posted == FormattedBatch(project, events)
      ensures OrEmpty(configs[gid].since) == SinceAfter(OrEmpty(old(configs)[gid].since), project, events)
      ensures old(configs)[gid].since.Some? ==> configs[gid].since.Some?
    {
      var cfg := configs[gid];
      var since;
      posted, since := SendBatch(project, events, cfg.since);
      configs := configs[gid := cfg.(since := since)];
    }

    /** One project of a poll: fetch its events with its stored cursor,
        and post them when there are some and the channel exists. */
    method PollProject(gid: int, project: string, channelOk: bool, probe: Option<string>, reply: Reply)
      returns (batch: seq<Event>, msgs: seq<string>)
      requires gid in configs
      modifies this
      ensures gid in configs
      ensures configs == old(configs)[gid := old(configs)[gid].(feed := configs[gid].feed, since := configs[gid].since)]
      ensures msgs == FormattedBatch(project, batch)
      ensures batch != [] ==> channelOk && !FailedReply(reply)
      ensures Done(OrEmpty(old(configs)[gid].since), OrEmpty(configs[gid].since), project, batch)
      ensures forall p :: p != project ==> Untouched(OrEmpty(old(configs)[gid].since), OrEmpty(configs[gid].since), p)
      ensures old(configs)[gid].since.Some? ==> configs[gid].since.Some?
      ensures
        var cached := Entry(OrEmpty(old(configs)[gid].feed), project);
        var since := Entry(OrEmpty(old(configs)[gid].since), project);
        && batch == (if channelOk then FetchedEvents(cached, probe, project, since, reply) else [])
        && configs[gid].feed.Some?
        && Entry(configs[gid].feed.value, project) == FeedEntryAfter(cached, probe, project, since, reply)
        && (forall p :: p != project ==> Entry(configs[gid].feed.value, p) == Entry(OrEmpty(old(configs)[gid].feed), p))
    {
      var cursors := OrEmpty(configs[gid].since);
      var since := if project in cursors then Some(cursors[project]) else None;
      ghost var c0 := configs[gid];
      var sent, events := FetchEvents(gid, project, since, probe, reply);
      ghost var c1 := configs[gid];
      assert c1 == c0.(feed := c1.feed);
      batch := [];
      msgs := [];
      if events.Success? && events.value != [] && channelOk {
        batch := events.value;
        msgs := PostBatch(gid, project, batch);
        SinceAfterDone(OrEmpty(c0.since), project, batch);
        assert configs == old(configs)[gid := c1][gid := c1.(since := configs[gid].since)];
        UpdateTwiceAt(old(configs), gid, c1, c1.(since := configs[gid].since));
      } else {
        assert FormattedBatch(project, batch) == [] && LastCursor(batch) == None;
      }
    }

    /** `_poll_guild(gid, cfg)`: unless the login (an input) fails, polls
        each routed project in `order` (the dict's iteration order); the
        probed feed, the reply and whether the route's channel is a text
        channel of the guild are inputs. `batches[k]` is what was posted for
        `order[k]` (empty when the fetch raised, found nothing or the channel
        is missing), `posted[k]` the messages sent for it; each project's
        cursor moves to the last cursor of its batch. */
    method PollGuild(gid: int, loginOk: bool, order: seq<string>, probes: seq<Option<string>>,
                     replies: seq<Reply>, textChannels: set<int>)
      returns (batches: seq<seq<Event>>, posted: seq<seq<string>>)
      requires gid in configs
      requires |probes| == |order| && |replies| == |order|
      requires forall i, j :: 0 <= i < j < |order| ==> order[i] != order[j]
      requires forall p :: p in order <==> p in OrEmpty(configs[gid].routes)
      modifies this
      ensures gid in configs
      ensures configs == old(configs)[gid := old(configs)[gid].(feed := configs[gid].feed, since := configs[gid].since)]
      ensures NeedsLogin(old(configs)[gid]) && !loginOk ==> configs == old(configs) && batches == [] && posted == []
      ensures !(NeedsLogin(old(configs)[gid]) && !loginOk) ==> |batches| == |order| && |posted| == |order|
      ensures |posted| == |batches| <= |order|
      ensures forall k :: 0 <= k < |batches| ==>
        && posted[k] == FormattedBatch(order[k], batches[k])
        && (batches[k] != [] ==> OrEmpty(old(configs)[gid].routes)[order[k]] in textChannels && !FailedReply(replies[k]))
      ensures forall k :: 0 <= k < |batches| ==>
        Done(OrEmpty(old(configs)[gid].since), OrEmpty(configs[gid].since), order[k], batches[k])
      ensures forall p :: p !in order ==> Untouched(OrEmpty(old(configs)[gid].since), OrEmpty(configs[gid].since), p)
      ensures forall k :: 0 <= k < |batches| ==>
        batches[k] == PolledBatch(old(configs)[gid], order[k], probes[k], replies[k], textChannels)
      ensures forall k :: 0 <= k < |batches| ==>
        Entry(OrEmpty(configs[gid].feed), order[k]) == PolledFeedEntry(old(configs)[gid], order[k], probes[k], replies[k])
      ensures forall p :: p !in order ==> Entry(OrEmpty(configs[gid].feed), p) == Entry(OrEmpty(old(configs)[gid].feed), p)
    {
      batches := [];
      posted := [];
      if NeedsLogin(configs[gid]) && !loginOk {
        return;
      }
      ghost var start := configs[gid];
      var routes := OrEmpty(configs[gid].routes);
      var j := 0;
      assert order[..0] == [];
      while j < |order|
        invariant 0 <= j <= |order|
        invariant |batches| == j && |posted| == j
        invariant routes == OrEmpty(start.routes)
        invariant gid in configs && configs == old(configs)[gid := configs[gid]]
        invariant PolledUpTo(start, configs[gid], order, probes, replies, textChannels, batches, posted)
      {
        var project := order[j];
        assert project in routes;
        ghost var c1 := configs[gid];
        var batch, msgs := PollProject(gid, project, routes[project] in textChannels, probes[j], replies[j]);
        PollStep(start, c1, configs[gid], order, probes, replies, textChannels, batches, posted, batch, msgs);
        batches := batches + [batch];
        posted := posted + [msgs];
        j := j + 1;
      }
      PollFinished(start, configs[gid], order, probes, replies, textChannels, batches, posted);
    }
  }

  /** The state of `_poll_guild` after the first `|batches|` projects of
      `order`, starting from `start`: only feeds and cursors changed, each
      polled project got its batch and messages, its cursor and its feed
      entry, and every other project is as it was. */
  ghost predicate PolledUpTo(start: GuildConfig, cur: GuildConfig, order: seq<string>, probes: seq<Option<string>>,
                             replies: seq<Reply>, textChannels: set<int>, batches: seq<seq<Event>>, posted: seq<seq<string>>)
  {
    && cur == start.(feed := cur.feed, since := cur.since)
    && BatchesPolled(start, order, probes, replies, textChannels, batches, posted)
    && CursorsPolled(OrEmpty(start.since), OrEmpty(cur.since), order, batches)
    && FeedsPolled(start, OrEmpty(cur.feed), order, probes, replies, |batches|)
  }

  /** Each of the first `|batches|` projects got the batch its fetch
      returned and the messages that batch formats to. */
  ghost predicate BatchesPolled(start: GuildConfig, order: seq<string>, probes: seq<Option<string>>,
                                replies: seq<Reply>, textChannels: set<int>, batches: seq<seq<Event>>, posted: seq<seq<string>>)
  {
    && |batches| == |posted| <= |order| && |probes| == |order| && |replies| == |order|
    && forall k :: 0 <= k < |batches| ==>
         && posted[k] == FormattedBatch(order[k], batches[k])
         && batches[k] == PolledBatch(start, order[k], probes[k], replies[k], textChannels)
  }

  /** Each of the first `|batches|` projects has its batch's cursor; the
      others keep theirs. */
  ghost predicate CursorsPolled(before: map<string, string>, after: map<string, string>,
                                order: seq<string>, batches: seq<seq<Event>>)
  {
    && |batches| <= |order|
    && (forall k :: 0 <= k < |batches| ==> Done(before, after, order[k], batches[k]))
    && (forall p :: p !in order[..|batches|] ==> Untouched(before, after, p))
  }

  /** Each of the first `j` projects has the feed entry its fetch left; the
      others keep theirs. */
  ghost predicate FeedsPolled(start: GuildConfig, feeds: map<string, string>, order: seq<string>,
                              probes: seq<Option<string>>, replies: seq<Reply>, j: nat)
  {
    && j <= |order| && |probes| == |order| && |replies| == |order|
    && (forall k :: 0 <= k < j ==> Entry(feeds, order[k]) == PolledFeedEntry(start, order[k], probes[k], replies[k]))
    && (forall p :: p !in order[..j] ==> Entry(feeds, p) == Entry(OrEmpty(start.feed), p))
  }

  /** A project not yet polled still has its starting cursor and feed
      entry. */
  lemma NotYetPolled(start: GuildConfig, cur: GuildConfig, order: seq<string>, probes: seq<Option<string>>,
                     replies: seq<Reply>, batches: seq<seq<Event>>)
    requires |batches| < |order|
    requires forall i, k :: 0 <= i < k < |order| ==> order[i] != order[k]
    requires CursorsPolled(OrEmpty(start.since), OrEmpty(cur.since), order, batches)
    requires FeedsPolled(start, OrEmpty(cur.feed), order, probes, replies, |batches|)
    ensures Entry(OrEmpty(cur.since), order[|batches|]) == Entry(OrEmpty(start.since), order[|batches|])
    ensures Entry(OrEmpty(cur.feed), order[|batches|]) == Entry(OrEmpty(start.feed), order[|batches|])
  {
    var j := |batches|;
    assert order[j] !in order[..j] by {
      forall k | 0 <= k < j ensures order[..j][k] != order[j] {
        assert order[..j][k] == order[k];
      }
    }
    assert Untouched(OrEmpty(start.since), OrEmpty(cur.since), order[j]);
  }

  /** One more polled project extends the batches and messages. */
  lemma BatchesStep(start: GuildConfig, order: seq<string>, probes: seq<Option<string>>, replies: seq<Reply>,
                    textChannels: set<int>, batches: seq<seq<Event>>, posted: seq<seq<string>>,
                    batch: seq<Event>, msgs: seq<string>)
    requires BatchesPolled(start, order, probes, replies, textChannels, batches, posted)
    requires |batches| < |order|
    requires msgs == FormattedBatch(order[|batches|], batch)
    requires batch == PolledBatch(start, order[|batches|], probes[|batches|], replies[|batches|], textChannels)
    ensures BatchesPolled(start, order, probes, replies, textChannels, batches + [batch], posted + [msgs])
  {
    var j := |batches|;
    forall k | 0 <= k < j + 1
      ensures (posted + [msgs])[k] == FormattedBatch(order[k], (batches + [batch])[k])
      ensures (batches + [batch])[k] == PolledBatch(start, order[k], probes[k], replies[k], textChannels)
    {
      if k < j {
        assert (posted + [msgs])[k] == posted[k] && (batches + [batch])[k] == batches[k];
      }
    }
  }

  /** A finished poll: every project of `order` has its batch, messages,
      cursor and feed entry, and every other project is as it was. */
  lemma PollFinished(start: GuildConfig, cur: GuildConfig, order: seq<string>, probes: seq<Option<string>>,
                     replies: seq<Reply>, textChannels: set<int>, batches: seq<seq<Event>>, posted: seq<seq<string>>)
    requires PolledUpTo(start, cur, order, probes, replies, textChannels, batches, posted)
    requires |batches| == |order|
    ensures cur == start.(feed := cur.feed, since := cur.since)
    ensures |posted| == |order|
    ensures forall k :: 0 <= k < |batches| ==>
      && posted[k] == FormattedBatch(order[k], batches[k])
      && (batches[k] != [] ==> OrEmpty(start.routes)[order[k]] in textChannels && !FailedReply(replies[k]))
    ensures forall k :: 0 <= k < |batches| ==> Done(OrEmpty(start.since), OrEmpty(cur.since), order[k], batches[k])
    ensures forall p :: p !in order ==> Untouched(OrEmpty(start.since), OrEmpty(cur.since), p)
    ensures forall k :: 0 <= k < |batches| ==> batches[k] == PolledBatch(start, order[k], probes[k], replies[k], textChannels)
    ensures forall k :: 0 <= k < |batches| ==>
      Entry(OrEmpty(cur.feed), order[k]) == PolledFeedEntry(start, order[k], probes[k], replies[k])
    ensures forall p :: p !in order ==> Entry(OrEmpty(cur.feed), p) == Entry(OrEmpty(start.feed), p)
  {
    assert order[..|batches|] == order;
  }

  /** Polling the next project of `order` (`PollProject` from `c1` to `c2`)
      extends the poll by that project's batch and messages. */
  lemma PollStep(start: GuildConfig, c1: GuildConfig, c2: GuildConfig, order: seq<string>, probes: seq<Option<string>>,
                 replies: seq<Reply>, textChannels: set<int>, batches: seq<seq<Event>>, posted: seq<seq<string>>,
                 batch: seq<Event>, msgs: seq<string>)
    requires PolledUpTo(start, c1, order, probes, replies, textChannels, batches, posted)
    requires |batches| < |order|
    requires forall i, k :: 0 <= i < k < |order| ==> order[i] != order[k]
    requires order[|batches|] in OrEmpty(start.routes)
    requires
      var j := |batches|;
      var project := order[j];
      var cached := Entry(OrEmpty(c1.feed), project);
      var since := Entry(OrEmpty(c1.since), project);
      && c2 == c1.(feed := c2.feed, since := c2.since)
      && msgs == FormattedBatch(project, batch)
      && Done(OrEmpty(c1.since), OrEmpty(c2.since), project, batch)
      && (forall p :: p != project ==> Untouched(OrEmpty(c1.since), OrEmpty(c2.since), p))
      && batch == (if OrEmpty(c1.routes)[project] in textChannels then FetchedEvents(cached, probes[j], project, since, replies[j]) else [])
      && c2.feed.Some?
      && Entry(c2.feed.value, project) == FeedEntryAfter(cached, probes[j], project, since, replies[j])
      && (forall p :: p != project ==> Entry(c2.feed.value, p) == Entry(OrEmpty(c1.feed), p))
    ensures PolledUpTo(start, c2, order, probes, replies, textChannels, batches + [batch], posted + [msgs])
  {
    var j := |batches|;
    NotYetPolled(start, c1, order, probes, replies, batches);
    BatchesStep(start, order, probes, replies, textChannels, batches, posted, batch, msgs);
    CursorsStep(OrEmpty(start.since), OrEmpty(c1.since), OrEmpty(c2.since), order, batches, batch);
    FeedsStep(start, OrEmpty(c1.feed), OrEmpty(c2.feed), order, probes, replies, j);
  }

  /** What a poll posts for `project`: the events its fetch returns when
      its route's channel is a text channel, nothing otherwise. */
  function PolledBatch(cfg: GuildConfig, project: string, probe: Option<string>, reply: Reply,
                       textChannels: set<int>): seq<Event>
  {
    var routes := OrEmpty(cfg.routes);
    if project in routes && routes[project] in textChannels then
      FetchedEvents(Entry(OrEmpty(cfg.feed), project), probe, project, Entry(OrEmpty(cfg.since), project), reply)
    else []
  }

  /** The project's cached feed path after a poll. */
  function PolledFeedEntry(cfg: GuildConfig, project: string, probe: Option<string>, reply: Reply): Option<string> {
    FeedEntryAfter(Entry(OrEmpty(cfg.feed), project), probe, project, Entry(OrEmpty(cfg.since), project), reply)
  }

  /** A poll's fetch of `order[j]` leaves that project's feed entry and
      keeps the entries of the projects already polled and of those not yet
      reached. */
  lemma FeedsStep(start: GuildConfig, mid: map<string, string>, after: map<string, string>, order: seq<string>,
                  probes: seq<Option<string>>, replies: seq<Reply>, j: nat)
    requires j < |order|
    requires forall i, k :: 0 <= i < k < |order| ==> order[i] != order[k]
    requires FeedsPolled(start, mid, order, probes, replies, j)
    requires Entry(after, order[j]) == PolledFeedEntry(start, order[j], probes[j], replies[j])
    requires forall p :: p != order[j] ==> Entry(after, p) == Entry(mid, p)
    ensures FeedsPolled(start, after, order, probes, replies, j + 1)
  {
    assert order[..j + 1] == order[..j] + [order[j]];
    forall k | 0 <= k < j ensures Entry(after, order[k]) == PolledFeedEntry(start, order[k], probes[k], replies[k]) {
      assert order[k] != order[j];
    }
  }

  /** After a poll, project `p`'s cursor is its batch's last cursor, or
      what it was before. */
  predicate Done(before: map<string, string>, after: map<string, string>, p: string, batch: seq<Event>) {
    && (LastCursor(batch).Some? ==> p in after && after[p] == LastCursor(batch).value)
    && (LastCursor(batch).None? ==> Untouched(before, after, p))
  }

  /** Project `p`'s cursor is as it was. */
  predicate Untouched(before: map<string, string>, after: map<string, string>, p: string) {
    (p in after <==> p in before) && (p in before ==> after[p] == before[p])
  }

  /** Polling `order[j]` gives it its batch's cursor and keeps the cursors
      of the projects already polled and of those not yet reached. */
  lemma CursorsStep(start: map<string, string>, mid: map<string, string>, after: map<string, string>,
                    order: seq<string>, batches: seq<seq<Event>>, batch: seq<Event>)
    requires |batches| < |order|
    requires forall i, k :: 0 <= i < k < |order| ==> order[i] != order[k]
    requires CursorsPolled(start, mid, order, batches)
    requires Done(mid, after, order[|batches|], batch)
    requires forall p :: p != order[|batches|] ==> Untouched(mid, after, p)
    ensures CursorsPolled(start, after, order, batches + [batch])
  {
    var j := |batches|;
    assert order[..j + 1] == order[..j] + [order[j]];
    assert order[j] !in order[..j] by {
      forall k | 0 <= k < j ensures order[..j][k] != order[j] {
        assert order[..j][k] == order[k];
      }
    }
    assert Untouched(start, mid, order[j]);
    forall k | 0 <= k < j + 1 ensures Done(start, after, order[k], (batches + [batch])[k]) {
      if k < j {
        assert order[k] != order[j];
        assert Untouched(mid, after, order[k]);
        assert (batches + [batch])[k] == batches[k];
      } else {
        assert (batches + [batch])[k] == batch;
      }
    }
    forall p | p !in order[..j + 1] ensures Untouched(start, after, p) {
      assert p !in order[..j] && p != order[j];
      assert Untouched(start, mid, p) && Untouched(mid, after, p);
    }
  }

  /** Unlinking right after linking removes the route the link added: the
      other routes are as before, and no feed is cached for the project. */
  method LinkThenUnlink(cog: KaneoCog, gid: int, project: string, channel: int)
    returns (linked: LinkOutcome, removed: bool)
    requires gid in cog.configs && cog.configs[gid].baseUrl != []
    modifies cog
    ensures linked == Linked && removed
    ensures gid in cog.configs
    ensures OrEmpty(cog.configs[gid].routes) == OrEmpty(old(cog.configs[gid].routes)) - {project}
    ensures project !in OrEmpty(cog.configs[gid].feed)
  {
    linked := cog.Link(gid, project, channel, true, true);
    removed := cog.Unlink(gid, project);
    assert OrEmpty(old(cog.configs[gid].routes))[project := channel] - {project} == OrEmpty(old(cog.configs[gid].routes)) - {project};
  }
}
