/** Transaction metrics: the range and its buckets, the totals, and the volume per
    currency. Times are nanoseconds since the first of January of year one, UTC; a
    bucket's label stands for its start, which the labels keep apart. */
module Analytics {
  import opened Wrappers
  import opened Text
  import opened Order

  const HOUR := 3_600_000_000_000
  const DAY := 24 * HOUR
  const MAX_BUCKETS := 400

  // ---- the range --------------------------------------------------------

  /** A time of zero means the bound was not given. */
  datatype Filter = Filter(from: int, to: int, interval: string)

  function LowerChar(c: char): char {
    if 'A' <= c <= 'Z' then (c as int + 32) as char else if c == '\U{212A}' then 'k' else c
  }

  /** Lower-casing on the characters whose lower case is an ASCII letter. */
  function ToLower(s: string): string {
    seq(|s|, i requires 0 <= i < |s| => LowerChar(s[i]))
  }

  function Floor(t: int, step: int): int
    requires step > 0
  {
    t - t % step
  }

  function Step(interval: string): (step: int)
    ensures step == HOUR || step == DAY
  {
    if interval == "hour" then HOUR else DAY
  }

  /** Buckets of width `step` it takes to cover the range. */
  function Needed(from: int, to: int, step: int): (n: nat)
    requires step > 0 && from <= to
    ensures n == 0 <==> from == to
    ensures n > 0 ==> from + (n - 1) * step < to <= from + n * step
  {
    (to - from + step - 1) / step
  }

  /** The starts of the buckets, cut off right after the limit is passed. */
  method Periods(from: int, to: int, step: int) returns (out: seq<int>)
    requires (step == HOUR || step == DAY) && from <= to
    ensures |out| == if Needed(from, to, step) <= MAX_BUCKETS then Needed(from, to, step) else MAX_BUCKETS + 1
    ensures forall i :: 0 <= i < |out| ==> out[i] == from + i * step
  {
    var at := from;
    out := [];
    while at < to
      invariant |out| <= MAX_BUCKETS && at == from + |out| * step
      invariant |out| <= Needed(from, to, step)
      invariant forall i :: 0 <= i < |out| ==> out[i] == from + i * step
    {
      NeededMore(from, to, step, |out|);
      out := out + [at];
      at := at + step;
      if |out| > MAX_BUCKETS {
        return;
      }
    }
    NeededDone(from, to, step, |out|);
  }

  lemma NeededMore(from: int, to: int, step: int, n: nat)
    requires step > 0 && from + n * step < to
    ensures n < Needed(from, to, step)
  {
  }

  lemma NeededDone(from: int, to: int, step: int, n: nat)
    requires step > 0 && from <= to <= from + n * step && n <= Needed(from, to, step)
    ensures n == Needed(from, to, step)
  {
  }

  /** The filter after its defaults, before the range is looked at. */
  function Defaulted(f: Filter, now: int): Filter {
    var trimmed := ToLower(TrimSpace(f.interval));
    var interval := if trimmed == "" then "day" else trimmed;
    var to := if f.to == 0 then Floor(now + HOUR, HOUR) else f.to;
    var from := if f.from == 0 then to - 30 * DAY else f.from;
    var start := Floor(from, HOUR);
    Filter(if interval == "day" then Floor(start, DAY) else start, Floor(to, HOUR), interval)
  }

  predicate Accepted(f: Filter) {
    (f.interval == "day" || f.interval == "hour") && f.from < f.to
    && Needed(f.from, f.to, Step(f.interval)) <= MAX_BUCKETS
  }

  method Normalize(f: Filter, now: int) returns (out: Option<Filter>)
    ensures out == if Accepted(Defaulted(f, now)) then Some(Defaulted(f, now)) else None
  {
    hide ToLower, TrimSpace, Floor;
    var interval := ToLower(TrimSpace(f.interval));
    if interval == "" {
      interval := "day";
    }
    if interval != "day" && interval != "hour" {
      return None;
    }
    var to, from := f.to, f.from;
    if to == 0 {
      to := Floor(now + HOUR, HOUR);
    }
    if from == 0 {
      from := to - 30 * DAY;
    }
    from, to := Floor(from, HOUR), Floor(to, HOUR);
    if interval == "day" {
      from := Floor(from, DAY);
    }
    if to <= from {
      return None;
    }
    var periods := Periods(from, to, Step(interval));
    if |periods| > MAX_BUCKETS {
      return None;
    }
    return Some(Filter(from, to, interval));
  }

  /** The interval may be written in any case, with space around it; without one it is
      the day. */
  lemma IntervalExact(f: Filter, now: int)
    ensures Defaulted(f, now).interval == "hour" <==> EqualFold(TrimSpace(f.interval), "hour")
    ensures
      Defaulted(f, now).interval == "day"
      <==> TrimSpace(f.interval) == "" || EqualFold(TrimSpace(f.interval), "day")
  {
    hide TrimSpace, Floor;
    FoldedAlike(TrimSpace(f.interval), "hour");
    FoldedAlike(TrimSpace(f.interval), "day");
  }

  lemma FoldedAlike(text: string, word: string)
    requires word == "hour" || word == "day"
    ensures EqualFold(text, word) <==> ToLower(text) == word
  {
    forall i | 0 <= i < |text| && |text| == |word|
      ensures FoldChar(text[i]) == FoldChar(word[i]) <==> LowerChar(text[i]) == word[i]
    {
    }
  }

  /** The range after its defaults. It ends at the last whole hour up to the end asked for,
      or at the first one after now; it starts at the last whole hour or day up to the
      start asked for, or up to thirty days before the end. */
  lemma RangeExact(f: Filter, now: int)
    ensures
      var g := Defaulted(f, now);
      var hour, day := 3_600_000_000_000, 86_400_000_000_000;
      var width := if g.interval == "day" then day else hour;
      var start := if f.from != 0 then f.from else (if f.to != 0 then f.to else g.to) - 30 * day;
      g.to % hour == 0 && (if f.to != 0 then g.to <= f.to < g.to + hour else now < g.to <= now + hour)
      && g.from % width == 0 && g.from <= start < g.from + width
      && (Accepted(g) <==> (g.interval == "hour" || g.interval == "day") && g.from < g.to <= g.from + 400 * width)
  {
    hide TrimSpace, ToLower, Floor, Needed;
    var g := Defaulted(f, now);
    var to := if f.to == 0 then Floor(now + HOUR, HOUR) else f.to;
    var from := if f.from == 0 then to - 30 * DAY else f.from;
    FloorExact(now + HOUR, HOUR);
    FloorExact(to, HOUR);
    FloorAgain(now + HOUR, HOUR);
    FloorExact(from, HOUR);
    FloorDay(from);
    if g.from < g.to {
      NeededWithin(g.from, g.to, Step(g.interval));
    }
  }

  lemma FloorExact(t: int, step: int)
    requires step > 0
    ensures Floor(t, step) % step == 0 && Floor(t, step) <= t < Floor(t, step) + step
  {
    DivisionOf(t, step);
    Remains(t / step, 0, step);
  }

  lemma FloorAgain(t: int, step: int)
    requires step > 0
    ensures Floor(Floor(t, step), step) == Floor(t, step)
  {
    FloorExact(t, step);
  }

  /** The day of the hour is the day. */
  lemma FloorDay(t: int)
    ensures
      var day := Floor(Floor(t, HOUR), DAY);
      day % DAY == 0 && day <= t < day + DAY
  {
    hide Floor;
    FloorExact(t, HOUR);
    FloorExact(Floor(t, HOUR), DAY);
    HoursInDay(Floor(t, HOUR), Floor(Floor(t, HOUR), DAY));
  }

  lemma HoursInDay(hour: int, day: int)
    requires hour % HOUR == 0 && day % DAY == 0 && hour < day + DAY
    ensures hour + HOUR <= day + DAY
  {
  }

  lemma NeededWithin(from: int, to: int, step: int)
    requires (step == HOUR || step == DAY) && from <= to
    ensures Needed(from, to, step) <= MAX_BUCKETS <==> to <= from + 400 * step
  {
  }


  lemma Aligned(f: Filter, now: int)
    requires Accepted(Defaulted(f, now))
    ensures var g := Defaulted(f, now); g.from % Step(g.interval) == 0
  {
  }

  /** An accepted range is tiled by one to four hundred buckets: every moment in it lies
      in exactly one of them, and truncating the moment gives that bucket's start. */
  lemma Tiled(f: Filter, now: int, t: int)
    requires Accepted(Defaulted(f, now))
    requires var g := Defaulted(f, now); g.from <= t < g.to
    ensures
      var g := Defaulted(f, now);
      var step := Step(g.interval);
      var n, i := Needed(g.from, g.to, step), (t - g.from) / step;
      1 <= n <= MAX_BUCKETS && 0 <= i < n && Floor(t, step) == g.from + i * step
      && forall j :: 0 <= j < n ==> (StartOf(g.from, j, step) <= t < StartOf(g.from, j + 1, step) <==> j == i)
  {
    hide Defaulted, Floor, Needed, StartOf, Step;
    Aligned(f, now);
    var g := Defaulted(f, now);
    TiledAt(g.from, g.to, Step(g.interval), t);
  }

  function StartOf(from: int, i: int, step: int): int {
    from + i * step
  }

  lemma TiledAt(from: int, to: int, step: int, t: int)
    requires step > 0 && from % step == 0 && from <= t < to
    ensures
      var n, i := Needed(from, to, step), (t - from) / step;
      0 <= i < n && Floor(t, step) == from + i * step
      && forall j :: 0 <= j < n ==> (StartOf(from, j, step) <= t < StartOf(from, j + 1, step) <==> j == i)
  {
    hide Floor, Needed, StartOf;
    SlotInRange(from, to, step, t);
    OnlySlot(from, step, t, (t - from) / step);
  }

  lemma SlotInRange(from: int, to: int, step: int, t: int)
    requires step > 0 && from % step == 0 && from <= t < to
    ensures
      var i := (t - from) / step;
      0 <= i < Needed(from, to, step) && Floor(t, step) == from + i * step
      && from + i * step <= t < from + (i + 1) * step
  {
    hide Floor, Needed;
    Slot(from, step, t);
    NeededMore(from, to, step, (t - from) / step);
  }

  lemma OnlySlot(from: int, step: int, t: int, i: int)
    requires step > 0 && from + i * step <= t < from + (i + 1) * step
    ensures forall j {:trigger StartOf(from, j, step)} ::
      StartOf(from, j, step) <= t < StartOf(from, j + 1, step) <==> j == i
  {
    hide StartOf;
    forall j
      ensures StartOf(from, j, step) <= t < StartOf(from, j + 1, step) <==> j == i
    {
      OneBucket(from, step, t, i, j);
    }
  }

  lemma Slot(from: int, step: int, t: int)
    requires step > 0 && from % step == 0 && from <= t
    ensures
      var i := (t - from) / step;
      i >= 0 && from + i * step <= t < from + (i + 1) * step && Floor(t, step) == from + i * step
  {
    hide Floor;
    DivisionOf(t - from, step);
    FloorShift(from, t - from, step);
    Scaled((t - from) / step + 1, 0, step);
  }

  lemma DivisionOf(x: int, step: int)
    requires step > 0
    ensures x / step * step <= x < (x / step + 1) * step && x - x % step == x / step * step
  {
  }

  lemma FloorShift(from: int, d: int, step: int)
    requires step > 0 && from % step == 0
    ensures Floor(from + d, step) == from + d / step * step
  {
    var q, i := from / step, d / step;
    DivisionOf(d, step);
    assert from == q * step;
    var r := d - i * step;
    assert from + d == (q + i) * step + r;
    Remains(q + i, r, step);
  }

  lemma Remains(q: int, r: int, step: int)
    requires 0 <= r < step
    ensures (q * step + r) % step == r
  {
    var x := q * step + r;
    DivisionOf(x, step);
    var p := x / step;
    Difference(q, p, step);
    Scaled(q - p, -1, step);
    Scaled(1, q - p, step);
  }

  lemma Difference(q: int, p: int, step: int)
    ensures (q - p) * step == q * step - p * step
  {
  }

  lemma Scaled(i: int, j: int, step: int)
    requires step > 0
    ensures i <= j ==> i * step <= j * step
  {
  }

  lemma OneBucket(from: int, step: int, t: int, i: int, j: int)
    requires step > 0 && from + i * step <= t < from + (i + 1) * step
    ensures StartOf(from, j, step) <= t < StartOf(from, j + 1, step) <==> j == i
  {
  }

  // ---- sorting keys -----------------------------------------------------

  predicate Leq(a: string, b: string) {
    !Less(b, a)
  }

  /** The first `n` are in order. */
  predicate Sorted(s: seq<string>, n: nat)
    requires n <= |s|
  {
    forall i, j :: 0 <= i < j < n ==> Leq(s[i], s[j])
  }

  lemma LeqTransitive(a: string, b: string, c: string)
    requires Leq(a, b) && Leq(b, c)
    ensures Leq(a, c)
  {
    if Less(c, a) {
      LessTotal(a, b);
      LessTotal(b, c);
      if Less(a, b) {
        LessTransitive(c, a, b);
      }
    }
  }

  /** In order but for the element at `j`, which is before everything after it. */
  predicate Sinking(s: seq<string>, n: nat, j: nat)
    requires j < n <= |s|
  {
    (forall p, q :: 0 <= p < q < n && p != j && q != j ==> Leq(s[p], s[q]))
    && forall q :: j < q < n ==> Leq(s[j], s[q])
  }

  lemma Sunk(s: seq<string>, n: nat, j: nat)
    requires j < n <= |s| && Sinking(s, n, j) && (j == 0 || !Less(s[j], s[j - 1]))
    ensures Sorted(s, n)
  {
    forall p | 0 <= p < j
      ensures Leq(s[p], s[j])
    {
      if p < j - 1 {
        LeqTransitive(s[p], s[j - 1], s[j]);
      }
    }
  }

  lemma SinkOn(s: seq<string>, n: nat, j: nat)
    requires 0 < j < n <= |s| && Sinking(s, n, j) && Less(s[j], s[j - 1])
    ensures
      var s' := s[j := s[j - 1]][j - 1 := s[j]];
      Sinking(s', n, j - 1) && multiset(s') == multiset(s) && s'[n..] == s[n..]
  {
    LessTotal(s[j], s[j - 1]);
    hide Less;
  }

  /** One round of the insertion sort: the element at `i` sinks to its place. */
  method Sink(keys: array<string>, i: nat)
    requires i < keys.Length && Sorted(keys[..], i)
    modifies keys
    ensures Sorted(keys[..], i + 1) && keys[i + 1..] == old(keys[i + 1..])
    ensures multiset(keys[..]) == multiset(old(keys[..]))
  {
    ghost var start := keys[..];
    SinkStart(start, i);
    var j := i;
    hide *;
    while j > 0 && Less(keys[j], keys[j - 1])
      invariant 0 <= j <= i
      invariant Sunken(start, keys[..], i, j)
    {
      ghost var s := keys[..];
      SunkenNext(start, s, i, j);
      keys[j], keys[j - 1] := keys[j - 1], keys[j];
      assert keys[..] == s[j := s[j - 1]][j - 1 := s[j]];
      j := j - 1;
    }
    SunkenEnd(start, keys[..], i, j);
    assert keys[i + 1..] == keys[..][i + 1..];
  }

  /** What the inner loop has made of the list it started with. */
  ghost predicate Sunken(start: seq<string>, s: seq<string>, i: nat, j: nat)
    requires j <= i < |start|
  {
    |s| == |start| && Sinking(s, i + 1, j) && s[i + 1..] == start[i + 1..] && multiset(s) == multiset(start)
  }

  lemma SunkenNext(start: seq<string>, s: seq<string>, i: nat, j: nat)
    requires 0 < j <= i < |start| == |s| && Sunken(start, s, i, j) && Less(s[j], s[j - 1])
    ensures Sunken(start, s[j := s[j - 1]][j - 1 := s[j]], i, j - 1)
  {
    hide Sinking, Less;
    SinkOn(s, i + 1, j);
  }

  lemma SunkenEnd(start: seq<string>, s: seq<string>, i: nat, j: nat)
    requires j <= i < |start| == |s| && Sunken(start, s, i, j) && (j == 0 || !Less(s[j], s[j - 1]))
    ensures Sorted(s, i + 1) && s[i + 1..] == start[i + 1..] && multiset(s) == multiset(start)
  {
    hide Sinking, Less;
    Sunk(s, i + 1, j);
  }

  lemma SinkStart(s: seq<string>, i: nat)
    requires i < |s| && Sorted(s, i)
    ensures Sunken(s, s, i, i)
  {
  }

  method Sort(keys: array<string>)
    modifies keys
    ensures Sorted(keys[..], keys.Length) && multiset(keys[..]) == multiset(old(keys[..]))
  {
    hide Leq, Less;
    var i := 1;
    while i < keys.Length
      invariant 1 <= i && (i <= keys.Length || keys.Length == 0)
      invariant Sorted(keys[..], if i <= keys.Length then i else 0)
      invariant multiset(keys[..]) == multiset(old(keys[..]))
    {
      Sink(keys, i);
      i := i + 1;
    }
  }

  /** The keys of a map, ascending. The map hands them out in any order. */
  method SortedKeys(values: set<string>) returns (out: seq<string>)
    ensures Ascending(out) && Members(out) == values
  {
    hide *;
    var list, rest := [], values;
    while rest != {}
      invariant rest <= values && multiset(list) == multiset(values - rest)
      decreases |rest|
    {
      var key :| key in rest;
      assert values - (rest - {key}) == values - rest + {key};
      list, rest := list + [key], rest - {key};
    }
    assert values - rest == values;
    var keys := new string[|list|](i requires 0 <= i < |list| => list[i]);
    assert keys[..] == list;
    Sort(keys);
    OnceEach(keys[..], values);
    return keys[..];
  }

  lemma Twice(s: seq<string>, i: nat, j: nat)
    requires i < j < |s|
    ensures s[i] == s[j] ==> multiset(s)[s[i]] >= 2
  {
    assert s == s[..i] + [s[i]] + s[i + 1..j] + [s[j]] + s[j + 1..];
  }

  lemma OnceEach(s: seq<string>, values: set<string>)
    requires multiset(s) == multiset(values) && Sorted(s, |s|)
    ensures Ascending(s) && Members(s) == values
  {
    hide Less;
    forall i, j | 0 <= i < j < |s|
      ensures Less(s[i], s[j])
    {
      LessTotal(s[i], s[j]);
      Twice(s, i, j);
      assert multiset(values)[s[i]] <= 1;
    }
    forall x
      ensures x in s <==> x in values
    {
      assert x in s <==> x in multiset(s);
      assert x in values <==> x in multiset(values);
    }
  }
}
