/** The pure formatting helpers of the music player
    (`src/modules/music/cog.py`): durations as clock text, the progress and
    volume bars, the numeric clamp and the pagination of the queue. */
module MusicFormat {
  import opened Wrappers
  import opened Strings

  /** The text shown for an unknown or non-positive duration. */
  const Unknown := "?:??"

  /** `h:mm:ss` when there are whole hours, else `m:ss`. */
  function Clock(n: nat): string {
    var s := n % 60;
    var m := (n / 60) % 60;
    var h := (n / 60) / 60;
    if h != 0 then NatToString(h) + ":" + Pad2(m) + ":" + Pad2(s)
    else NatToString(m) + ":" + Pad2(s)
  }

  /** `fmt_time(sec)`: `None`, zero and negative durations are unknown; any
      other duration is shown by its whole seconds (`int(sec)`). */
  function FmtTime(sec: Option<real>): (r: string)
    ensures r == Unknown <==> sec.None? || sec.value <= 0.0
    ensures sec.Some? && sec.value > 0.0 ==> r == Clock(sec.value.Floor)
  {
    if sec.None? || sec.value <= 0.0 then Unknown
    else
      var n := sec.value.Floor;
      assert IsDigit(Clock(n)[0]);
      Clock(n)
  }

  /** A field of clock text: one or more decimal digits. */
  function ParseField(p: string): Option<nat> {
    if p != [] && AllDigits(p) then Some(DigitsValue(p)) else None
  }

  /** Reads clock text back into seconds: `m:ss` or `h:mm:ss`, with minutes
      (in the second form) and seconds below 60. */
  function ParseClock(t: string): Option<nat> {
    var parts := Split(t, ':');
    if |parts| == 2 then
      match (ParseField(parts[0]), ParseField(parts[1]))
      case (Some(m), Some(s)) => if s < 60 then Some(m * 60 + s) else None
      case _ => None
    else if |parts| == 3 then
      match (ParseField(parts[0]), ParseField(parts[1]), ParseField(parts[2]))
      case (Some(h), Some(m), Some(s)) => if m < 60 && s < 60 then Some(h * 3600 + m * 60 + s) else None
      case _ => None
    else None
  }

  lemma FieldOf(p: string)
    requires p != [] && AllDigits(p)
    ensures ':' !in p
    ensures ParseField(p) == Some(DigitsValue(p))
  {
  }

  /** The hours, minutes and seconds that `Clock` prints add back up to
      `n`, with minutes and seconds below 60. */
  lemma ClockFields(n: nat)
    ensures (n / 60) / 60 * 3600 + (n / 60) % 60 * 60 + n % 60 == n
  {
    var s := n % 60;
    var m := (n / 60) % 60;
    var h := (n / 60) / 60;
    assert n == (n / 60) * 60 + s;
    assert n / 60 == h * 60 + m;
    assert n == (h * 60 + m) * 60 + s;
  }

  lemma ThreeFields(a: string, b: string, c: string)
    requires a != [] && AllDigits(a) && b != [] && AllDigits(b) && c != [] && AllDigits(c)
    ensures Split(a + ":" + b + ":" + c, ':') == [a, b, c]
  {
    FieldOf(a);
    FieldOf(b);
    FieldOf(c);
    SplitNoSep(c, ':');
    assert a + ":" + b + ":" + c == a + [':'] + (b + [':'] + c);
    SplitCons(b, c, ':');
    SplitCons(a, b + [':'] + c, ':');
  }

  lemma TwoFields(a: string, c: string)
    requires a != [] && AllDigits(a) && c != [] && AllDigits(c)
    ensures Split(a + ":" + c, ':') == [a, c]
  {
    FieldOf(a);
    FieldOf(c);
    SplitNoSep(c, ':');
    SplitCons(a, c, ':');
  }

  /** The clock text of `n` seconds reads back as `n`: its fields are the
      hours, the minutes below 60 and the seconds below 60 of `n`. */
  lemma ClockRoundTrip(n: nat)
    ensures ParseClock(Clock(n)) == Some(n)
  {
    var s := n % 60;
    var m := (n / 60) % 60;
    var h := (n / 60) / 60;
    ClockFields(n);
    NatToStringValue(h);
    NatToStringValue(m);
    Pad2Value(m);
    Pad2Value(s);
    if h != 0 {
      ThreeFields(NatToString(h), Pad2(m), Pad2(s));
    } else {
      TwoFields(NatToString(m), Pad2(s));
    }
  }

  /** Every positive duration is shown as its whole seconds. */
  lemma FmtTimeRoundTrip(sec: real)
    requires sec > 0.0
    ensures sec.Floor >= 0
    ensures ParseClock(FmtTime(Some(sec))) == Some(sec.Floor)
  {
    ClockRoundTrip(sec.Floor);
  }

  /** `clamp(x, lo, hi)`: `x` inside the range, `lo` below it and `hi`
      above it. With `lo > hi` the test against `lo` comes first. */
  function Clamp(x: int, lo: int, hi: int): (r: int)
    ensures lo <= hi ==> lo <= r <= hi
    ensures lo <= x <= hi ==> r == x
    ensures x < lo ==> r == lo
    ensures lo <= x && hi < x ==> r == hi
  {
    if x < lo then lo else if x > hi then hi else x
  }

  /** Over a proper range, clamping is the smaller of `hi` and the larger
      of `x` and `lo`. */
  lemma ClampMinMax(x: int, lo: int, hi: int)
    requires lo <= hi
    ensures Clamp(x, lo, hi) == Min(Max(x, lo), hi)
  {
  }

  function Min(a: int, b: int): int { if a <= b then a else b }

  function Max(a: int, b: int): int { if a >= b then a else b }

  const FilledCell := '▰'
  const HollowCell := '▱'

  /** `max(0.0, min(1.0, frac))` */
  function Unit(frac: real): (r: real)
    ensures 0.0 <= r <= 1.0
  {
    if frac > 1.0 then 1.0 else if frac < 0.0 then 0.0 else frac
  }

  lemma FractionOf(u: real, w: real)
    requires 0.0 <= u <= 1.0 && w >= 0.0
    ensures 0.0 <= u * w <= w
  {
    assert w - u * w == (1.0 - u) * w;
  }

  /** `int(frac * width)` for the clamped fraction. */
  function ProgressFill(frac: real, width: nat): (f: nat)
    ensures f <= width
    ensures f as real <= Unit(frac) * width as real < f as real + 1.0
  {
    var u := Unit(frac);
    var x := u * width as real;
    assert 0.0 <= x <= width as real by {
      FractionOf(u, width as real);
    }
    x.Floor
  }

  /** `progress_bar(frac, width)` */
  function ProgressBar(frac: real, width: nat): (r: string)
    ensures |r| == width
    ensures forall i :: 0 <= i < width ==>
      r[i] == (if i < ProgressFill(frac, width) then FilledCell else HollowCell)
  {
    var f := ProgressFill(frac, width);
    Repeat(FilledCell, f) + Repeat(HollowCell, width - f)
  }

  /** A larger fraction never fills fewer cells. */
  lemma ProgressMonotone(a: real, b: real, width: nat)
    requires a <= b
    ensures ProgressFill(a, width) <= ProgressFill(b, width)
  {
    var x, y := Unit(a) * width as real, Unit(b) * width as real;
    assert x <= y by {
      assert Unit(a) <= Unit(b);
    }
  }

  /** `round(num / 100)` with Python's ties-to-even rule, on exact rationals. */
  function RoundPercent(num: int): (r: int)
    ensures 100 * (2 * r - 1) <= 2 * num <= 100 * (2 * r + 1)
    ensures 2 * num == 100 * (2 * r - 1) || 2 * num == 100 * (2 * r + 1) ==> r % 2 == 0
  {
    var q := num / 100;
    var rem := num % 100;
    if 2 * rem < 100 then q
    else if 2 * rem > 100 then q + 1
    else if q % 2 == 0 then q
    else q + 1
  }

  const VolumeFull := '█'
  const VolumeLight := '░'

  /** `int(round(percent / 100 * width))` */
  function VolumeFill(percent: int, width: nat): int {
    RoundPercent(percent * width)
  }

  /** `volume_bar(percent, width)`: `filled` full cells then light cells up to
      `width`; above 100% the full cells run past `width`. */
  function VolumeBar(percent: int, width: nat): (r: string)
    ensures VolumeFill(percent, width) >= 0 ==>
      |r| == if VolumeFill(percent, width) > width then VolumeFill(percent, width) else width
    ensures VolumeFill(percent, width) < 0 ==> |r| == width - VolumeFill(percent, width)
    ensures forall i :: 0 <= i < |r| ==>
      r[i] == (if i < VolumeFill(percent, width) then VolumeFull else VolumeLight)
  {
    var filled := VolumeFill(percent, width);
    Repeat(VolumeFull, filled) + Repeat(VolumeLight, width - filled)
  }

  /** Between 0% and 100% the bar is exactly `width` cells, all full at 100%
      and all light at 0%. */
  lemma VolumeBarInRange(percent: int, width: nat)
    requires 0 <= percent <= 100
    ensures |VolumeBar(percent, width)| == width
    ensures percent == 100 ==> VolumeFill(percent, width) == width
    ensures percent == 0 ==> VolumeFill(percent, width) == 0
  {
    var num := percent * width;
    assert 0 <= num <= 100 * width by {
      MulMono(percent, 100, width);
      MulMono(0, percent, width);
    }
    var f := VolumeFill(percent, width);
    assert 100 * (2 * f - 1) <= 2 * num <= 100 * (2 * f + 1);
  }

  /** The concatenation of a list of pages. */
  function Flatten<T>(pages: seq<seq<T>>): seq<T> {
    if pages == [] then [] else Flatten(pages[..|pages| - 1]) + pages[|pages| - 1]
  }

  /** How many pages a queue of `n` items takes: always at least one. */
  function PageCount(n: nat, perPage: nat): (c: nat)
    requires perPage > 0
    ensures c >= 1
  {
    if n == 0 then 1 else (n - 1) / perPage + 1
  }

  lemma MulMono(x: int, y: int, p: int)
    requires x <= y && p >= 0
    ensures x * p <= y * p
  {
    assert y * p - x * p == (y - x) * p;
  }

  lemma DivBetween(a: int, p: int, k: int)
    requires p > 0 && k * p <= a < k * p + p
    ensures a / p == k
  {
    var q, r := a / p, a % p;
    assert a == q * p + r && 0 <= r < p;
    if q < k {
      assert (q + 1) * p == q * p + p;
      MulMono(q + 1, k, p);
    } else if q > k {
      assert (k + 1) * p == k * p + p;
      MulMono(k + 1, q, p);
    }
  }

  /** `QueueView._queue_pages()`: the queue cut into consecutive pages of
      `perPage` items; an empty queue is one empty page. */
  method QueuePages<T>(q: seq<T>, perPage: nat) returns (pages: seq<seq<T>>)
    requires perPage > 0
    ensures Flatten(pages) == q
    ensures |pages| == PageCount(|q|, perPage)
    ensures forall k :: 0 <= k < |pages| ==> |pages[k]| <= perPage
    ensures forall k :: 0 <= k < |pages| - 1 ==> |pages[k]| == perPage
    ensures q != [] ==> forall k :: 0 <= k < |pages| ==> pages[k] != []
  {
    pages := [];
    var i := 0;
    while i < |q|
      invariant i == PageStart(|pages|, perPage)
      invariant i < |q| + perPage
      invariant Flatten(pages) == q[..if i <= |q| then i else |q|]
      invariant forall k :: 0 <= k < |pages| ==> 0 < |pages[k]| <= perPage
      invariant i <= |q| ==> forall k :: 0 <= k < |pages| ==> |pages[k]| == perPage
      invariant forall k :: 0 <= k < |pages| - 1 ==> |pages[k]| == perPage
    {
      var hi := if i + perPage <= |q| then i + perPage else |q|;
      var page := q[i..hi];
      FlattenSnoc(pages, page);
      assert q[..hi] == q[..i] + page;
      pages := pages + [page];
      i := i + perPage;
    }
    if pages == [] {
      pages := [[]];
      FlattenSnoc<T>([], []);
    } else {
      PageStartIsProduct(|pages|, perPage);
      PageStartIsProduct(|pages| - 1, perPage);
      DivBetween(|q| - 1, perPage, |pages| - 1);
    }
  }

  /** Where page `k` starts: `k * perPage`, counted up one page at a time. */
  function PageStart(k: nat, perPage: nat): nat {
    if k == 0 then 0 else PageStart(k - 1, perPage) + perPage
  }

  lemma {:induction false} PageStartIsProduct(k: nat, perPage: nat)
    ensures PageStart(k, perPage) == k * perPage
  {
    if k > 0 {
      PageStartIsProduct(k - 1, perPage);
      assert k * perPage == (k - 1) * perPage + perPage;
    }
  }

  lemma FlattenSnoc<T>(pages: seq<seq<T>>, page: seq<T>)
    ensures Flatten(pages + [page]) == Flatten(pages) + page
  {
    assert (pages + [page])[..|pages|] == pages;
  }

  /** The page index that `_on_remove_select` clamps to,
      `max(0, (len(queue) - 1) // per_page)`, is the last page of the
      queue's pagination. */
  lemma RemoveClampIsLastPage(n: nat, perPage: nat)
    requires perPage > 0
    ensures (if (n - 1) / perPage < 0 then 0 else (n - 1) / perPage) == PageCount(n, perPage) - 1
  {
    if n == 0 {
      DivBetween(-1, perPage, -1);
    }
  }
}
