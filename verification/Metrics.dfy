/** The bucketed series: the fold over the aggregated rows, and what adds up in it. */
module Metrics {
  import opened Wrappers
  import opened Text
  import opened Order
  import opened Analytics
  import Statuses

  /** One aggregated row: so many transactions of one service, status and currency
      truncated to one period, and their summed amount. */
  datatype Row = Row(period: int, service: string, status: string, currency: string, count: nat, amount: int)

  datatype Bucket = Bucket(period: int, total: nat, collection: nat, disbursement: nat, succeeded: nat, failed: nat)

  datatype Volume = Volume(currency: string, count: nat, amount: int)

  datatype Report = Report(buckets: seq<Bucket>, total: nat, collection: nat, disbursement: nat, volume: seq<Volume>)

  // ---- what is counted --------------------------------------------------

  datatype Part = All | OfService(service: string) | Succeeded | Failed | OfCurrency(currency: string)

  predicate Belongs(r: Row, part: Part) {
    match part
    case All => true
    case OfService(service) => r.service == service
    case Succeeded => r.status == "succeeded"
    case Failed => r.status == "failed" || r.status == "expired" || r.status == "cancelled"
    case OfCurrency(currency) => r.currency == currency
  }

  predicate Counts(r: Row, period: Option<int>, part: Part) {
    (period.None? || r.period == period.value) && Belongs(r, part)
  }

  /** Transactions of the part in the period, or in all periods. */
  function Tally(rows: seq<Row>, period: Option<int>, part: Part): nat {
    if rows == [] then 0
    else
      var last := rows[|rows| - 1];
      Tally(rows[..|rows| - 1], period, part) + if Counts(last, period, part) then last.count else 0
  }

  function Moved(rows: seq<Row>, currency: string): int {
    if rows == [] then 0
    else
      var last := rows[|rows| - 1];
      Moved(rows[..|rows| - 1], currency) + if last.currency == currency then last.amount else 0
  }

  /** What one row counts for: in its own period only, and as a success or a failure just
      when its status has settled, and how. */
  lemma TallyOne(r: Row, period: Option<int>, part: Part)
    ensures
      var status := Statuses.FromText(r.status);
      Tally([r], period, part)
      == if (period == None || period == Some(r.period))
            && match part
               case All => true
               case OfService(service) => r.service == service
               case Succeeded => status == Statuses.Succeeded
               case Failed => Statuses.Terminal(status) && status != Statuses.Succeeded
               case OfCurrency(currency) => r.currency == currency
         then r.count else 0
    ensures forall c: string :: Moved([r], c) == if r.currency == c then r.amount else 0
  {
  }

  /** Tallies add up over any split of the rows: their order does not matter. */
  lemma {:induction false} TallyOfConcat(a: seq<Row>, b: seq<Row>, period: Option<int>, part: Part, currency: string)
    ensures Tally(a + b, period, part) == Tally(a, period, part) + Tally(b, period, part)
    ensures Moved(a + b, currency) == Moved(a, currency) + Moved(b, currency)
  {
    if b == [] {
      assert a + b == a;
    } else {
      TallyOfConcat(a, b[..|b| - 1], period, part, currency);
      assert (a + b)[..|a + b| - 1] == a + b[..|b| - 1];
    }
  }

  /** The counts of one period, or of all of them. */
  function Cell(rows: seq<Row>, period: Option<int>): Bucket {
    Bucket(if period.Some? then period.value else 0, Tally(rows, period, All),
           Tally(rows, period, OfService("collection")), Tally(rows, period, OfService("disbursement")),
           Tally(rows, period, Succeeded), Tally(rows, period, Failed))
  }

  /** Sums of amounts wrap around at 64 bits. */
  function VolumeOf(rows: seq<Row>, currency: string): Volume {
    Volume(currency, Tally(rows, None, OfCurrency(currency)), Wrap64(Moved(rows, currency)))
  }

  function Currencies(rows: seq<Row>): set<string> {
    set i | 0 <= i < |rows| :: rows[i].currency
  }

  predicate InRange(f: Filter, period: int)
    requires Accepted(f)
  {
    var step := Step(f.interval);
    exists i {:trigger StartOf(f.from, i, step)} ::
      0 <= i < Needed(f.from, f.to, step) && period == StartOf(f.from, i, step)
  }

  predicate SeriesOf(f: Filter, rows: seq<Row>, buckets: seq<Bucket>)
    requires Accepted(f)
  {
    var step := Step(f.interval);
    |buckets| == Needed(f.from, f.to, step)
    && forall i :: 0 <= i < |buckets| ==> buckets[i] == Cell(rows, Some(StartOf(f.from, i, step)))
  }

  predicate VolumesOf(rows: seq<Row>, keys: seq<string>, volume: seq<Volume>) {
    Ascending(keys) && Members(keys) == Currencies(rows) && |volume| == |keys|
    && forall i :: 0 <= i < |keys| ==> volume[i] == VolumeOf(rows, keys[i])
  }

  ghost predicate IsReport(f: Filter, rows: seq<Row>, out: Report)
    requires Accepted(f)
  {
    SeriesOf(f, rows, out.buckets)
    && out.total == Tally(rows, None, All)
    && out.collection == Tally(rows, None, OfService("collection"))
    && out.disbursement == Tally(rows, None, OfService("disbursement"))
    && exists keys :: VolumesOf(rows, keys, out.volume)
  }

  // ---- the fold ---------------------------------------------------------

  /** What one row adds to a bucket or to the totals. */
  function Added(b: Bucket, r: Row): Bucket {
    Bucket(b.period, b.total + r.count,
           b.collection + if r.service == "collection" then r.count else 0,
           b.disbursement + if r.service == "disbursement" then r.count else 0,
           b.succeeded + if r.status == "succeeded" then r.count else 0,
           b.failed + if r.status == "failed" || r.status == "expired" || r.status == "cancelled" then r.count else 0)
  }

  lemma TallyNext(rows: seq<Row>, k: nat, period: Option<int>, part: Part)
    requires k < |rows|
    ensures
      Tally(rows[..k + 1], period, part)
      == Tally(rows[..k], period, part) + if Counts(rows[k], period, part) then rows[k].count else 0
  {
    assert rows[..k + 1][..k] == rows[..k];
  }

  lemma CellNext(rows: seq<Row>, k: nat, period: Option<int>)
    requires k < |rows|
    ensures
      Cell(rows[..k + 1], period)
      == if period.None? || rows[k].period == period.value then Added(Cell(rows[..k], period), rows[k])
         else Cell(rows[..k], period)
  {
    hide Tally;
    TallyNext(rows, k, period, All);
    TallyNext(rows, k, period, OfService("collection"));
    TallyNext(rows, k, period, OfService("disbursement"));
    TallyNext(rows, k, period, Succeeded);
    TallyNext(rows, k, period, Failed);
  }

  lemma StartsApart(from: int, step: int, i: int, j: int)
    requires step > 0
    ensures StartOf(from, i, step) == StartOf(from, j, step) <==> i == j
  {
  }

  /** The labels of the first `n` buckets, each at its position. */
  ghost predicate Indexed(f: Filter, index: map<int, nat>, n: nat) {
    var step := Step(f.interval);
    (forall p :: p in index ==> index[p] < n && p == StartOf(f.from, index[p], step))
    && forall i :: 0 <= i < n ==> StartOf(f.from, i, step) in index
  }

  /** The zeroed series and the position of each label in it. */
  method Seed(f: Filter) returns (buckets: seq<Bucket>, index: map<int, nat>)
    requires Accepted(f)
    ensures SeriesOf(f, [], buckets)
    ensures Indexed(f, index, |buckets|)
  {
    hide Needed;
    var step := Step(f.interval);
    var periods := Periods(f.from, f.to, step);
    buckets, index := [], map[];
    for k := 0 to |periods|
      invariant |buckets| == k
      invariant forall i :: 0 <= i < k ==> buckets[i] == Cell([], Some(StartOf(f.from, i, step)))
      invariant Indexed(f, index, k)
    {
      assert periods[k] == StartOf(f.from, k, step);
      forall i | 0 <= i < k
        ensures StartOf(f.from, i, step) != periods[k]
      {
        StartsApart(f.from, step, i, k);
      }
      index := index[periods[k] := |buckets|];
      buckets := buckets + [Bucket(periods[k], 0, 0, 0, 0, 0)];
    }
  }

  lemma SeriesNext(f: Filter, rows: seq<Row>, k: nat, buckets: seq<Bucket>, i: nat)
    requires Accepted(f) && k < |rows| && i < |buckets| && SeriesOf(f, rows[..k], buckets)
    requires rows[k].period == StartOf(f.from, i, Step(f.interval))
    ensures SeriesOf(f, rows[..k + 1], buckets[i := Added(buckets[i], rows[k])])
  {
    hide Added, Cell, StartOf, Accepted;
    var step := Step(f.interval);
    var buckets' := buckets[i := Added(buckets[i], rows[k])];
    forall j | 0 <= j < |buckets'|
      ensures buckets'[j] == Cell(rows[..k + 1], Some(StartOf(f.from, j, step)))
    {
      StartsApart(f.from, step, i, j);
      CellNext(rows, k, Some(StartOf(f.from, j, step)));
    }
  }

  lemma WrapAdd(x: int, y: int)
    ensures Wrap64(Wrap64(x) + y) == Wrap64(x + y)
  {
  }

  predicate Tracks(rows: seq<Row>, volume: map<string, Volume>) {
    volume.Keys == Currencies(rows) && forall c :: c in volume ==> volume[c] == VolumeOf(rows, c)
  }

  lemma TracksNext(rows: seq<Row>, k: nat, volume: map<string, Volume>)
    requires k < |rows| && Tracks(rows[..k], volume)
    ensures
      var r := rows[k];
      var v := if r.currency in volume then volume[r.currency] else Volume(r.currency, 0, 0);
      Tracks(rows[..k + 1], volume[r.currency := Volume(r.currency, v.count + r.count, Wrap64(v.amount + r.amount))])
  {
    var r := rows[k];
    assert rows[..k + 1] == rows[..k] + [r];
    forall c
      ensures c in Currencies(rows[..k + 1]) <==> c == r.currency || c in Currencies(rows[..k])
    {
      if c == r.currency {
        assert rows[..k + 1][k].currency == c;
      } else if c in Currencies(rows[..k]) {
        var i :| 0 <= i < k && rows[..k][i].currency == c;
        assert rows[..k + 1][i].currency == c;
      }
    }
    hide Currencies, Wrap64;
    forall c
      ensures VolumeOf(rows[..k + 1], c)
              == if c == r.currency
                 then Volume(c, VolumeOf(rows[..k], c).count + r.count,
                             Wrap64(VolumeOf(rows[..k], c).amount + r.amount))
                 else VolumeOf(rows[..k], c)
    {
      VolumeNext(rows, k, c);
    }
    if r.currency !in volume {
      Absent(rows[..k], r.currency);
    }
  }

  lemma VolumeNext(rows: seq<Row>, k: nat, c: string)
    requires k < |rows|
    ensures
      var before, r := VolumeOf(rows[..k], c), rows[k];
      VolumeOf(rows[..k + 1], c)
      == if c == r.currency then Volume(c, before.count + r.count, Wrap64(before.amount + r.amount)) else before
  {
    hide Wrap64, Tally;
    TallyNext(rows, k, None, OfCurrency(c));
    assert rows[..k + 1][..k] == rows[..k];
    WrapAdd(Moved(rows[..k], c), rows[k].amount);
  }

  lemma {:induction false} Absent(rows: seq<Row>, c: string)
    requires c !in Currencies(rows)
    ensures VolumeOf(rows, c) == Volume(c, 0, 0)
  {
    if rows != [] {
      var short := rows[..|rows| - 1];
      assert forall i :: 0 <= i < |short| ==> short[i] == rows[i];
      assert rows[|rows| - 1].currency in Currencies(rows);
      Absent(short, c);
    }
  }

  /** The state of the fold after some rows. */
  predicate Folded(f: Filter, rows: seq<Row>, buckets: seq<Bucket>, total: Bucket, volume: map<string, Volume>)
    requires Accepted(f)
  {
    SeriesOf(f, rows, buckets) && total == Cell(rows, None) && Tracks(rows, volume)
  }

  lemma FoldStart(f: Filter, buckets: seq<Bucket>)
    requires Accepted(f) && SeriesOf(f, [], buckets)
    ensures Folded(f, [], buckets, Bucket(0, 0, 0, 0, 0, 0), map[])
  {
  }

  function Grown(volume: map<string, Volume>, r: Row): map<string, Volume> {
    var v := if r.currency in volume then volume[r.currency] else Volume(r.currency, 0, 0);
    volume[r.currency := Volume(r.currency, v.count + r.count, Wrap64(v.amount + r.amount))]
  }

  lemma FoldNext(f: Filter, rows: seq<Row>, k: nat, buckets: seq<Bucket>, total: Bucket, volume: map<string, Volume>,
                 i: nat)
    requires Accepted(f) && k < |rows| && i < |buckets| && Folded(f, rows[..k], buckets, total, volume)
    requires rows[k].period == StartOf(f.from, i, Step(f.interval))
    ensures
      Folded(f, rows[..k + 1], buckets[i := Added(buckets[i], rows[k])], Added(total, rows[k]), Grown(volume, rows[k]))
  {
    hide Accepted, Added, Cell, SeriesOf, Tracks;
    SeriesNext(f, rows, k, buckets, i);
    CellNext(rows, k, None);
    TracksNext(rows, k, volume);
  }

  lemma IndexExact(f: Filter, index: map<int, nat>, n: nat, period: int)
    requires Accepted(f) && Indexed(f, index, n) && n == Needed(f.from, f.to, Step(f.interval))
    ensures period in index <==> InRange(f, period)
    ensures period in index ==> index[period] < n && period == StartOf(f.from, index[period], Step(f.interval))
  {
  }

  lemma FoldSize(f: Filter, rows: seq<Row>, buckets: seq<Bucket>, total: Bucket, volume: map<string, Volume>)
    requires Accepted(f) && Folded(f, rows, buckets, total, volume)
    ensures |buckets| == Needed(f.from, f.to, Step(f.interval))
  {
  }

  /** The buckets, the totals and the volume map after every row; nothing when some
      row's period is none of the labels. */
  method Fold(f: Filter, rows: seq<Row>)
      returns (ok: bool, buckets: seq<Bucket>, total: Bucket, volume: map<string, Volume>)
    requires Accepted(f)
    ensures ok <==> forall k :: 0 <= k < |rows| ==> InRange(f, rows[k].period)
    ensures ok ==> Folded(f, rows, buckets, total, volume)
  {
    hide *;
    var index;
    buckets, index := Seed(f);
    total, volume := Bucket(0, 0, 0, 0, 0, 0), map[];
    FoldStart(f, buckets);
    assert rows[..0] == [];
    for k := 0 to |rows|
      invariant Folded(f, rows[..k], buckets, total, volume)
      invariant Indexed(f, index, |buckets|)
      invariant forall j :: 0 <= j < k ==> InRange(f, rows[j].period)
    {
      var r := rows[k];
      FoldSize(f, rows[..k], buckets, total, volume);
      IndexExact(f, index, |buckets|, r.period);
      if r.period !in index {
        ok := false;
        return;
      }
      FoldNext(f, rows, k, buckets, total, volume, index[r.period]);
      buckets := buckets[index[r.period] := Added(buckets[index[r.period]], r)];
      total := Added(total, r);
      volume := Grown(volume, r);
    }
    assert rows[..|rows|] == rows;
    ok := true;
  }

  method Transactions(f: Filter, rows: seq<Row>) returns (out: Option<Report>)
    requires Accepted(f)
    ensures out.Some? <==> forall k :: 0 <= k < |rows| ==> InRange(f, rows[k].period)
    ensures out.Some? ==> IsReport(f, rows, out.value)
  {
    var ok, buckets, total, volume := Fold(f, rows);
    if !ok {
      return None;
    }
    hide SeriesOf, Tally, VolumeOf, Currencies, Accepted, Less, Members, Ascending;
    var keys := SortedKeys(volume.Keys);
    var volumes: seq<Volume> := [];
    for k := 0 to |keys|
      invariant |volumes| == k
      invariant forall i :: 0 <= i < k ==> volumes[i] == VolumeOf(rows, keys[i])
    {
      NotMember(keys[k], keys);
      volumes := volumes + [volume[keys[k]]];
    }
    assert VolumesOf(rows, keys, volumes);
    return Some(Report(buckets, total.total, total.collection, total.disbursement, volumes));
  }

  // ---- what adds up -----------------------------------------------------

  datatype Column = Totals | Collections | Disbursements | Successes | Failures

  function In(b: Bucket, column: Column): nat {
    match column
    case Totals => b.total
    case Collections => b.collection
    case Disbursements => b.disbursement
    case Successes => b.succeeded
    case Failures => b.failed
  }

  function PartOf(column: Column): Part {
    match column
    case Totals => All
    case Collections => OfService("collection")
    case Disbursements => OfService("disbursement")
    case Successes => Succeeded
    case Failures => Failed
  }

  function SumIn(buckets: seq<Bucket>, column: Column): nat {
    if buckets == [] then 0 else SumIn(buckets[..|buckets| - 1], column) + In(buckets[|buckets| - 1], column)
  }

  /** One period after another, the tallies of the first `n` buckets. */
  function Across(rows: seq<Row>, from: int, step: int, n: nat, part: Part): nat {
    if n == 0 then 0
    else Across(rows, from, step, n - 1, part) + Tally(rows, Some(StartOf(from, n - 1, step)), part)
  }

  lemma {:induction false} SumIsAcross(f: Filter, rows: seq<Row>, buckets: seq<Bucket>, n: nat, column: Column)
    requires Accepted(f) && SeriesOf(f, rows, buckets) && n <= |buckets|
    ensures SumIn(buckets[..n], column) == Across(rows, f.from, Step(f.interval), n, PartOf(column))
  {
    hide Accepted, Tally, StartOf;
    if n > 0 {
      SumIsAcross(f, rows, buckets, n - 1, column);
      assert buckets[..n][..n - 1] == buckets[..n - 1];
    }
  }

  lemma {:induction false} AcrossNone(from: int, step: int, n: nat, part: Part)
    ensures Across([], from, step, n, part) == 0
  {
    if n > 0 {
      AcrossNone(from, step, n - 1, part);
    }
  }

  /** A row in the range is counted by one bucket, and only by one. */
  lemma {:induction false} AcrossNext(rows: seq<Row>, from: int, step: int, n: nat, part: Part, i: nat)
    requires rows != [] && step > 0 && rows[|rows| - 1].period == StartOf(from, i, step)
    ensures
      Across(rows, from, step, n, part)
      == Across(rows[..|rows| - 1], from, step, n, part)
         + if i < n && Belongs(rows[|rows| - 1], part) then rows[|rows| - 1].count else 0
  {
    hide StartOf, Belongs;
    if n > 0 {
      AcrossNext(rows, from, step, n - 1, part, i);
      StartsApart(from, step, i, n - 1);
    }
  }

  lemma {:induction false} AcrossAll(f: Filter, rows: seq<Row>, part: Part)
    requires Accepted(f) && forall k :: 0 <= k < |rows| ==> InRange(f, rows[k].period)
    ensures
      var step := Step(f.interval);
      Across(rows, f.from, step, Needed(f.from, f.to, step), part) == Tally(rows, None, part)
  {
    var step := Step(f.interval);
    var n := Needed(f.from, f.to, step);
    hide Accepted, Needed, StartOf, Step, Belongs;
    if rows == [] {
      AcrossNone(f.from, step, n, part);
    } else {
      AcrossAll(f, rows[..|rows| - 1], part);
      var i :| 0 <= i < n && rows[|rows| - 1].period == StartOf(f.from, i, step);
      AcrossNext(rows, f.from, step, n, part, i);
    }
  }

  /** Nothing is lost between the chart and the totals: every column of the series sums
      to that total over all rows. */
  lemma SeriesAddsUp(f: Filter, rows: seq<Row>, out: Report, column: Column)
    requires Accepted(f) && IsReport(f, rows, out)
    requires forall k :: 0 <= k < |rows| ==> InRange(f, rows[k].period)
    ensures
      SumIn(out.buckets, column)
      == match column
         case Totals => Tally(rows, None, All)
         case Collections => Tally(rows, None, OfService("collection"))
         case Disbursements => Tally(rows, None, OfService("disbursement"))
         case Successes => Tally(rows, None, Succeeded)
         case Failures => Tally(rows, None, Failed)
    ensures column == Totals ==> SumIn(out.buckets, column) == out.total
    ensures column == Collections ==> SumIn(out.buckets, column) == out.collection
    ensures column == Disbursements ==> SumIn(out.buckets, column) == out.disbursement
  {
    hide Tally, InRange;
    SumIsAcross(f, rows, out.buckets, |out.buckets|, column);
    assert out.buckets[..|out.buckets|] == out.buckets;
    AcrossAll(f, rows, PartOf(column));
  }

  // ---- the volume -------------------------------------------------------

  function SumCounts(volume: seq<Volume>): nat {
    if volume == [] then 0 else SumCounts(volume[..|volume| - 1]) + volume[|volume| - 1].count
  }

  function Shared(rows: seq<Row>, keys: seq<string>): nat {
    if keys == [] then 0
    else Shared(rows, keys[..|keys| - 1]) + Tally(rows, None, OfCurrency(keys[|keys| - 1]))
  }

  lemma {:induction false} SumIsShared(rows: seq<Row>, keys: seq<string>, volume: seq<Volume>)
    requires |keys| == |volume| && forall i :: 0 <= i < |keys| ==> volume[i] == VolumeOf(rows, keys[i])
    ensures SumCounts(volume) == Shared(rows, keys)
  {
    if keys != [] {
      SumIsShared(rows, keys[..|keys| - 1], volume[..|volume| - 1]);
    }
  }

  lemma {:induction false} SharedNone(keys: seq<string>)
    ensures Shared([], keys) == 0
  {
    if keys != [] {
      SharedNone(keys[..|keys| - 1]);
    }
  }

  predicate Once(keys: seq<string>) {
    forall i, j :: 0 <= i < j < |keys| ==> keys[i] != keys[j]
  }

  lemma {:induction false} SharedNext(rows: seq<Row>, keys: seq<string>)
    requires rows != [] && Once(keys)
    ensures
      var r := rows[|rows| - 1];
      Shared(rows, keys) == Shared(rows[..|rows| - 1], keys) + if r.currency in keys then r.count else 0
  {
    if keys != [] {
      var short := keys[..|keys| - 1];
      SharedNext(rows, short);
      assert keys == short + [keys[|keys| - 1]];
      assert keys[|keys| - 1] !in short;
    }
  }

  lemma {:induction false} SharedAll(rows: seq<Row>, keys: seq<string>)
    requires Once(keys) && forall k :: 0 <= k < |rows| ==> rows[k].currency in keys
    ensures Shared(rows, keys) == Tally(rows, None, All)
  {
    if rows == [] {
      SharedNone(keys);
    } else {
      SharedAll(rows[..|rows| - 1], keys);
      SharedNext(rows, keys);
    }
  }

  /** Volumes come sorted, one per currency that occurs, and their counts sum to the
      total; an amount is the exact sum whenever that fits 64 bits. */
  lemma VolumesAddUp(f: Filter, rows: seq<Row>, out: Report)
    requires Accepted(f) && IsReport(f, rows, out)
    ensures SumCounts(out.volume) == out.total
    ensures forall i, j :: 0 <= i < j < |out.volume| ==> Less(out.volume[i].currency, out.volume[j].currency)
    ensures forall c :: c in Currencies(rows) <==> exists i :: 0 <= i < |out.volume| && out.volume[i].currency == c
    ensures forall i :: 0 <= i < |out.volume| && InInt64(Moved(rows, out.volume[i].currency)) ==>
      out.volume[i].amount == Moved(rows, out.volume[i].currency)
  {
    hide Accepted, SeriesOf, Tally, Less, Moved;
    var keys :| VolumesOf(rows, keys, out.volume);
    SumIsShared(rows, keys, out.volume);
    forall i, j | 0 <= i < j < |keys|
      ensures keys[i] != keys[j]
    {
      LessTotal(keys[i], keys[j]);
    }
    forall k | 0 <= k < |rows|
      ensures rows[k].currency in keys
    {
      assert rows[k].currency in Currencies(rows);
      NotMember(rows[k].currency, keys);
    }
    SharedAll(rows, keys);
    forall c
      ensures c in Currencies(rows) <==> exists i :: 0 <= i < |out.volume| && out.volume[i].currency == c
    {
      NotMember(c, keys);
      if c in keys {
        var i :| 0 <= i < |keys| && keys[i] == c;
        assert out.volume[i].currency == c;
      }
    }
  }

  /** The error is unreachable: a row aggregated from transactions of the range, its
      period truncated from the creation time, always has a bucket. */
  lemma TruncatedInRange(f: Filter, now: int, created: int)
    requires Accepted(Defaulted(f, now))
    requires var g := Defaulted(f, now); g.from <= created < g.to
    ensures var g := Defaulted(f, now); InRange(g, Floor(created, Step(g.interval)))
  {
    Tiled(f, now, created);
    var g := Defaulted(f, now);
    hide Defaulted, Floor;
    var step := Step(g.interval);
    var i := (created - g.from) / step;
    assert Floor(created, step) == StartOf(g.from, i, step);
  }
}
