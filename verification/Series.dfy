/** aggregate(): GROUP BY hour or day over emitted_at, and why the daily series is the
    hourly one rolled up. */
module Series {
  import opened Prelude
  import opened Store

  datatype Totals = Totals(units: int, cost: int, events: nat, minBalance: int, maxBalance: int)
  datatype Bucket = Bucket(key: string, totals: Totals)

  function Single(r: Row): Totals {
    Totals(r.units, r.cost, 1, r.balanceAfter, r.balanceAfter)
  }

  function Join(a: Totals, b: Totals): Totals {
    Totals(a.units + b.units, a.cost + b.cost, a.events + b.events,
           if b.minBalance < a.minBalance then b.minBalance else a.minBalance,
           if a.maxBalance < b.maxBalance then b.maxBalance else a.maxBalance)
  }

  datatype Granularity = Hour | Day

  function Prefix(s: string, n: nat): string {
    if |s| <= n then s else s[..n]
  }

  function DayOf(stamp: string): string {
    Prefix(stamp, 10)
  }

  function BucketKey(g: Granularity, stamp: string): string {
    if g == Hour then Prefix(stamp, 13) + ":00:00" else DayOf(stamp)
  }

  /** Strictly before, in the text order of SQL. */
  predicate Before(a: string, b: string) {
    TextLeq(a, b) && a != b
  }

  /** Adds totals to the bucket with this key, keeping the series in ascending key order. */
  function Merge(series: seq<Bucket>, key: string, t: Totals): seq<Bucket> {
    if series == [] || Before(key, series[0].key) then [Bucket(key, t)] + series
    else if key == series[0].key then [Bucket(key, Join(series[0].totals, t))] + series[1..]
    else [series[0]] + Merge(series[1..], key, t)
  }

  function AggregateStep(q: Query, g: Granularity): (seq<Bucket>, Row) -> seq<Bucket> {
    (series: seq<Bucket>, r: Row) =>
      if Matches(q, r) then Merge(series, BucketKey(g, r.emittedAt), Single(r)) else series
  }

  function Aggregate(rows: seq<Row>, q: Query, g: Granularity): seq<Bucket> {
    Fold(AggregateStep(q, g), [], rows)
  }

  lemma AggregateExtend(rows: seq<Row>, q: Query, g: Granularity)
    requires rows != []
    ensures Aggregate(rows, q, g) ==
              if Matches(q, Last(rows))
              then Merge(Aggregate(Init(rows), q, g), BucketKey(g, Last(rows).emittedAt), Single(Last(rows)))
              else Aggregate(Init(rows), q, g)
  {
  }

  // ---- The text order ----

  lemma {:induction false} TextLeqRefl(a: string)
    ensures TextLeq(a, a)
  {
    if a != [] {
      TextLeqRefl(a[1..]);
    }
  }

  lemma {:induction false} TextLeqTotal(a: string, b: string)
    ensures TextLeq(a, b) || TextLeq(b, a)
    ensures TextLeq(a, b) && TextLeq(b, a) ==> a == b
  {
    if a != [] && b != [] {
      TextLeqTotal(a[1..], b[1..]);
      assert a == [a[0]] + a[1..] && b == [b[0]] + b[1..];
    }
  }

  lemma {:induction false} TextLeqTrans(a: string, b: string, c: string)
    requires TextLeq(a, b) && TextLeq(b, c)
    ensures TextLeq(a, c)
  {
    if a != [] && a[0] == b[0] == c[0] {
      TextLeqTrans(a[1..], b[1..], c[1..]);
    }
  }

  lemma BeforeTrans(a: string, b: string, c: string)
    requires Before(a, b) && Before(b, c)
    ensures Before(a, c)
  {
    TextLeqTrans(a, b, c);
    TextLeqTotal(a, b);
  }

  // ---- Strictly ascending buckets, each row in exactly one ----

  predicate Ascending(series: seq<Bucket>) {
    forall i, j :: 0 <= i < j < |series| ==> Before(series[i].key, series[j].key)
  }

  predicate Has(series: seq<Bucket>, key: string) {
    exists i :: 0 <= i < |series| && series[i].key == key
  }

  /** The totals under a key; a series in ascending order has at most one such bucket. */
  function At(series: seq<Bucket>, key: string): Option<Totals> {
    if series == [] then None
    else if series[0].key == key then Some(series[0].totals)
    else At(series[1..], key)
  }

  function JoinOption(a: Option<Totals>, t: Totals): Option<Totals> {
    Some(if a.Some? then Join(a.value, t) else t)
  }

  lemma {:induction false} MergeKeys(series: seq<Bucket>, key: string, t: Totals, k: string)
    ensures Has(Merge(series, key, t), k) <==> Has(series, k) || k == key
  {
    var m := Merge(series, key, t);
    if series == [] || Before(key, series[0].key) {
      assert m[0].key == key && m[1..] == series;
      if Has(series, k) {
        var i :| 0 <= i < |series| && series[i].key == k;
        assert m[i + 1].key == k;
      }
    } else if key == series[0].key {
      assert forall i :: 0 <= i < |m| ==> m[i].key == series[i].key;
      if Has(series, k) {
        var i :| 0 <= i < |series| && series[i].key == k;
        assert m[i].key == k;
      }
      assert m[0].key == key;
    } else {
      var rest := Merge(series[1..], key, t);
      MergeKeys(series[1..], key, t, k);
      assert m == [series[0]] + rest;
      if Has(rest, k) {
        var i :| 0 <= i < |rest| && rest[i].key == k;
        assert m[i + 1].key == k;
      }
      if Has(series[1..], k) {
        var i :| 0 <= i < |series[1..]| && series[1..][i].key == k;
        assert series[i + 1].key == k;
      }
      if Has(series, k) {
        var i :| 0 <= i < |series| && series[i].key == k;
        if i > 0 {
          assert series[1..][i - 1].key == k;
        } else {
          assert m[0].key == k;
        }
      }
    }
  }

  lemma {:induction false} MergeAscending(series: seq<Bucket>, key: string, t: Totals)
    requires Ascending(series)
    ensures Ascending(Merge(series, key, t))
  {
    var m := Merge(series, key, t);
    if series == [] {
    } else if Before(key, series[0].key) {
      forall j | 0 < j < |m| ensures Before(key, m[j].key) {
        if j > 1 {
          BeforeTrans(key, series[0].key, series[j - 1].key);
        }
      }
    } else if key == series[0].key {
      assert forall i :: 0 <= i < |m| ==> m[i].key == series[i].key;
    } else {
      var rest := Merge(series[1..], key, t);
      MergeAscending(series[1..], key, t);
      TextLeqTotal(key, series[0].key);
      forall j | 0 <= j < |rest| ensures Before(series[0].key, rest[j].key) {
        MergeKeys(series[1..], key, t, rest[j].key);
        assert Has(rest, rest[j].key);
        if rest[j].key != key {
          var i :| 0 <= i < |series[1..]| && series[1..][i].key == rest[j].key;
          assert series[i + 1].key == rest[j].key;
        }
      }
    }
  }

  lemma {:induction false} AscendingHead(series: seq<Bucket>, key: string)
    requires Ascending(series) && series != [] && Before(key, series[0].key)
    ensures At(series, key) == None
  {
    if |series| > 1 {
      BeforeTrans(key, series[0].key, series[1].key);
      AscendingHead(series[1..], key);
    }
  }

  /** Merging changes the bucket under its key, and no other. */
  lemma {:induction false} MergeAt(series: seq<Bucket>, key: string, t: Totals, k: string)
    requires Ascending(series)
    ensures At(Merge(series, key, t), k) == if k == key then JoinOption(At(series, k), t) else At(series, k)
  {
    var m := Merge(series, key, t);
    if series == [] {
      assert m[1..] == [];
    } else if Before(key, series[0].key) {
      assert m[1..] == series;
      AscendingHead(series, key);
    } else if key == series[0].key {
      assert m[1..] == series[1..];
    } else {
      assert m[1..] == Merge(series[1..], key, t);
      MergeAt(series[1..], key, t, k);
    }
  }

  /** The rows of a request that fall under one key. */
  function Under(rows: seq<Row>, q: Query, g: Granularity, key: string): seq<Row> {
    if rows == [] then []
    else if Matches(q, Last(rows)) && BucketKey(g, Last(rows).emittedAt) == key
    then Under(Init(rows), q, g, key) + [Last(rows)]
    else Under(Init(rows), q, g, key)
  }

  predicate Summarizes(t: Totals, rows: seq<Row>) {
    && rows != []
    && t.units == TotalUnits(rows) && t.cost == TotalCost(rows) && t.events == |rows|
    && (forall i :: 0 <= i < |rows| ==> t.minBalance <= rows[i].balanceAfter <= t.maxBalance)
    && (exists i :: 0 <= i < |rows| && rows[i].balanceAfter == t.minBalance)
    && (exists i :: 0 <= i < |rows| && rows[i].balanceAfter == t.maxBalance)
  }

  lemma SummarizesExtend(t: Option<Totals>, rows: seq<Row>, r: Row)
    requires if rows == [] then t == None else t.Some? && Summarizes(t.value, rows)
    ensures Summarizes(JoinOption(t, Single(r)).value, rows + [r])
  {
    var own := rows + [r];
    TotalsExtend(rows, r);
    assert own[|rows|] == r && forall i :: 0 <= i < |rows| ==> own[i] == rows[i];
  }

  /** aggregate(): buckets strictly ascending; under every key exactly the matching rows with
      that key, summed, counted, and bounded by their least and greatest balance. */
  lemma {:induction false} AggregateMeaning(rows: seq<Row>, q: Query, g: Granularity, key: string)
    ensures var series, own := Aggregate(rows, q, g), Under(rows, q, g, key);
            && Ascending(series)
            && if own == [] then At(series, key) == None
               else At(series, key).Some? && Summarizes(At(series, key).value, own)
  {
    if rows != [] {
      AggregateMeaning(Init(rows), q, g, key);
      AggregateExtend(rows, q, g);
      var r, before, own := Last(rows), Aggregate(Init(rows), q, g), Under(Init(rows), q, g, key);
      if Matches(q, r) {
        var k := BucketKey(g, r.emittedAt);
        MergeAscending(before, k, Single(r));
        MergeAt(before, k, Single(r), key);
        if k == key {
          assert Under(rows, q, g, key) == own + [r];
          SummarizesExtend(At(before, key), own, r);
        } else {
          assert Under(rows, q, g, key) == own;
        }
      } else {
        assert Under(rows, q, g, key) == own;
      }
    }
  }

  // ---- Which rows make up a bucket ----

  /** The wanted rows whose stamp begins like this. */
  ghost function Beginning(rows: seq<Row>, q: Query, start: string): seq<Row> {
    if rows == [] then []
    else if Wanted(q, Last(rows)) && start <= Last(rows).emittedAt
    then Beginning(Init(rows), q, start) + [Last(rows)]
    else Beginning(Init(rows), q, start)
  }

  predicate StampedTo(rows: seq<Row>, width: nat) {
    forall i :: 0 <= i < |rows| ==> width <= |rows[i].emittedAt|
  }

  /** The series has this key exactly once, with just these rows, or not at all without rows. */
  ghost predicate OneBucket(series: seq<Bucket>, key: string, rows: seq<Row>) {
    if rows == [] then !Has(series, key)
    else exists i :: IsBucket(series, i, key, rows) && forall j :: 0 <= j < |series| && j != i ==> series[j].key != key
  }

  predicate IsBucket(series: seq<Bucket>, i: int, key: string, rows: seq<Row>) {
    0 <= i < |series| && series[i].key == key && Summarizes(series[i].totals, rows)
  }

  lemma {:induction false} AtIndex(series: seq<Bucket>, key: string) returns (i: nat)
    requires At(series, key).Some?
    ensures i < |series| && series[i] == Bucket(key, At(series, key).value)
  {
    if series[0].key == key {
      i := 0;
    } else {
      i := AtIndex(series[1..], key);
      i := i + 1;
    }
  }

  lemma {:induction false} AtNone(series: seq<Bucket>, key: string)
    ensures At(series, key) == None <==> !Has(series, key)
  {
    if series != [] && series[0].key != key {
      AtNone(series[1..], key);
      if Has(series, key) {
        var i :| 0 <= i < |series| && series[i].key == key;
        assert series[1..][i - 1].key == key;
      }
      if Has(series[1..], key) {
        var i :| 0 <= i < |series[1..]| && series[1..][i].key == key;
        assert series[i + 1].key == key;
      }
    }
  }

  lemma {:induction false} UnderIsBeginning(rows: seq<Row>, q: Query, g: Granularity, key: string, start: string)
    requires forall r :: r in rows ==> (BucketKey(g, r.emittedAt) == key <==> start <= r.emittedAt)
    ensures Under(rows, q, g, key) == Beginning(rows, q, start)
  {
    if rows != [] {
      UnderIsBeginning(Init(rows), q, g, key, start);
      MatchesExactly(q, Last(rows));
      assert Last(rows) in rows;
    }
  }

  lemma AggregateOneBucket(rows: seq<Row>, q: Query, g: Granularity, key: string)
    ensures OneBucket(Aggregate(rows, q, g), key, Under(rows, q, g, key))
  {
    var series := Aggregate(rows, q, g);
    AggregateMeaning(rows, q, g, key);
    AtNone(series, key);
    if Under(rows, q, g, key) != [] {
      var i := AtIndex(series, key);
      assert IsBucket(series, i, key, Under(rows, q, g, key));
    }
  }

  /** A daily bucket is a date: under each ten characters exactly the wanted rows whose stamps
      begin with them, in one bucket of that name. */
  lemma DailyBuckets(rows: seq<Row>, q: Query, date: string)
    requires StampedTo(rows, 10) && |date| == 10
    ensures OneBucket(Aggregate(rows, q, Day), date, Beginning(rows, q, date))
  {
    AggregateOneBucket(rows, q, Day, date);
    UnderIsBeginning(rows, q, Day, date, date);
  }

  /** An hourly bucket is a date and an hour: thirteen characters, named with ":00:00" behind. */
  lemma HourlyBuckets(rows: seq<Row>, q: Query, hour: string)
    requires StampedTo(rows, 13) && |hour| == 13
    ensures OneBucket(Aggregate(rows, q, Hour), hour + ":00:00", Beginning(rows, q, hour))
  {
    AggregateOneBucket(rows, q, Hour, hour + ":00:00");
    forall r | r in rows ensures BucketKey(Hour, r.emittedAt) == hour + ":00:00" <==> hour <= r.emittedAt {
      var p := r.emittedAt[..13];
      assert (p + ":00:00")[..13] == p && (hour + ":00:00")[..13] == hour;
    }
    UnderIsBeginning(rows, q, Hour, hour + ":00:00", hour);
  }

  /** No bucket is anything else, and they come in the order of a dictionary. */
  lemma BucketsInOrder(rows: seq<Row>, q: Query, g: Granularity, i: nat, j: nat)
    requires i < j < |Aggregate(rows, q, g)|
    ensures var series := Aggregate(rows, q, g);
            series[i].key != series[j].key && Dictionary(series[i].key, series[j].key)
  {
    AggregateMeaning(rows, q, g, "");
    TextLeqMeaning(Aggregate(rows, q, g)[i].key, Aggregate(rows, q, g)[j].key);
  }

  lemma {:induction false} BucketWidth(rows: seq<Row>, q: Query, g: Granularity, i: nat)
    requires StampedTo(rows, if g == Hour then 13 else 10) && i < |Aggregate(rows, q, g)|
    ensures var key := Aggregate(rows, q, g)[i].key;
            if g == Hour then |key| == 19 && key[13..] == ":00:00" else |key| == 10
  {
    var series, key := Aggregate(rows, q, g), Aggregate(rows, q, g)[i].key;
    AggregateMeaning(rows, q, g, key);
    AtNone(series, key);
    assert Has(series, key);
    var r := UnderHas(rows, q, g, key);
    assert Prefix(r.emittedAt, 13) + ":00:00" == key || g == Day;
  }

  lemma {:induction false} UnderHas(rows: seq<Row>, q: Query, g: Granularity, key: string) returns (r: Row)
    requires Under(rows, q, g, key) != []
    ensures r in rows && BucketKey(g, r.emittedAt) == key
  {
    if Matches(q, Last(rows)) && BucketKey(g, Last(rows).emittedAt) == key {
      r := Last(rows);
    } else {
      r := UnderHas(Init(rows), q, g, key);
    }
  }

  // ---- Totals over the whole series ----

  function SeriesUnits(series: seq<Bucket>): int {
    if series == [] then 0 else series[0].totals.units + SeriesUnits(series[1..])
  }

  function SeriesCost(series: seq<Bucket>): int {
    if series == [] then 0 else series[0].totals.cost + SeriesCost(series[1..])
  }

  function SeriesEvents(series: seq<Bucket>): int {
    if series == [] then 0 else series[0].totals.events + SeriesEvents(series[1..])
  }

  lemma {:induction false} MergeTotals(series: seq<Bucket>, key: string, t: Totals)
    ensures var m := Merge(series, key, t);
            && SeriesUnits(m) == SeriesUnits(series) + t.units
            && SeriesCost(m) == SeriesCost(series) + t.cost
            && SeriesEvents(m) == SeriesEvents(series) + t.events
  {
    var m := Merge(series, key, t);
    if series == [] || Before(key, series[0].key) {
      assert m[1..] == series;
    } else if key == series[0].key {
      assert m[1..] == series[1..];
    } else {
      assert m[1..] == Merge(series[1..], key, t);
      MergeTotals(series[1..], key, t);
    }
  }

  /** Whatever the granularity, the buckets add up to the samples of the same request. */
  lemma {:induction false} SeriesAddsUp(rows: seq<Row>, q: Query, g: Granularity)
    ensures var series, samples := Aggregate(rows, q, g), Matching(q, rows);
            && SeriesUnits(series) == TotalUnits(samples)
            && SeriesCost(series) == TotalCost(samples)
            && SeriesEvents(series) == |samples|
  {
    if rows != [] {
      SeriesAddsUp(Init(rows), q, g);
      AggregateExtend(rows, q, g);
      var r := Last(rows);
      if Matches(q, r) {
        MergeTotals(Aggregate(Init(rows), q, g), BucketKey(g, r.emittedAt), Single(r));
        TotalsExtend(Matching(q, Init(rows)), r);
      }
    }
  }

  lemma {:induction false} TotalsAppend(a: seq<Row>, b: seq<Row>)
    ensures TotalUnits(a + b) == TotalUnits(a) + TotalUnits(b)
    ensures TotalCost(a + b) == TotalCost(a) + TotalCost(b)
  {
    if b == [] {
      assert a + b == a;
    } else {
      assert Init(a + b) == a + Init(b);
      TotalsAppend(a, Init(b));
    }
  }

  lemma {:induction false} InsertedTotals(sorted: seq<Row>, r: Row)
    ensures TotalUnits(InsertBySeq(sorted, r)) == TotalUnits(sorted) + r.units
    ensures TotalCost(InsertBySeq(sorted, r)) == TotalCost(sorted) + r.cost
    ensures |InsertBySeq(sorted, r)| == |sorted| + 1
  {
    assert Init([r]) == [];
    if sorted == [] || r.seqNo < sorted[0].seqNo {
      TotalsAppend([r], sorted);
    } else {
      var h, t := [sorted[0]], sorted[1..];
      InsertedTotals(t, r);
      TotalsAppend(h, t);
      TotalsAppend(h, InsertBySeq(t, r));
      assert sorted == h + t;
    }
  }

  lemma {:induction false} SampleTotals(rows: seq<Row>, q: Query)
    ensures var samples, matching := MetricsFor(rows, q), Matching(q, rows);
            TotalUnits(samples) == TotalUnits(matching) && TotalCost(samples) == TotalCost(matching)
            && |samples| == |matching|
  {
    if rows != [] {
      SampleTotals(Init(rows), q);
      if Matches(q, Last(rows)) {
        InsertedTotals(MetricsFor(Init(rows), q), Last(rows));
        TotalsExtend(Matching(q, Init(rows)), Last(rows));
      }
    }
  }

  predicate SeriesMatches(series: seq<Bucket>, samples: seq<Row>) {
    && SeriesUnits(series) == TotalUnits(samples)
    && SeriesCost(series) == TotalCost(samples)
    && SeriesEvents(series) == |samples|
  }

  /** The metrics route awaits its samples first and its series second. The series it serves
      adds up to those samples and whatever matching rows were ingested in between; so the two
      halves agree exactly when there were none. */
  lemma MetricsRouteAgrees(first: seq<Row>, more: seq<Row>, q: Query, g: Granularity)
    ensures var series, samples, between := Aggregate(first + more, q, g), MetricsFor(first, q), Matching(q, more);
            && SeriesUnits(series) == TotalUnits(samples) + TotalUnits(between)
            && SeriesCost(series) == TotalCost(samples) + TotalCost(between)
            && SeriesEvents(series) == |samples| + |between|
            && (SeriesMatches(series, samples) <==> between == [])
  {
    SeriesAddsUp(first + more, q, g);
    SampleTotals(first, q);
    MatchingAppend(first, more, q);
    TotalsAppend(Matching(q, first), Matching(q, more));
  }

  // ---- Rolling hours up into days ----

  function RollUp(hourly: seq<Bucket>): seq<Bucket> {
    if hourly == [] then []
    else Merge(RollUp(hourly[1..]), DayOf(hourly[0].key), hourly[0].totals)
  }

  lemma {:induction false} MergeSameKey(series: seq<Bucket>, key: string, a: Totals, b: Totals)
    ensures Merge(Merge(series, key, a), key, b) == Merge(series, key, Join(a, b))
  {
    TextLeqRefl(key);
    if series == [] || Before(key, series[0].key) {
      assert ([Bucket(key, a)] + series)[1..] == series;
    } else if key == series[0].key {
      assert ([Bucket(key, Join(series[0].totals, a))] + series[1..])[1..] == series[1..];
    } else {
      MergeSameKey(series[1..], key, a, b);
      assert ([series[0]] + Merge(series[1..], key, a))[1..] == Merge(series[1..], key, a);
    }
  }

  lemma MergeStep(h: Bucket, t: seq<Bucket>, key: string, v: Totals)
    ensures Merge([h] + t, key, v) ==
              if Before(key, h.key) then [Bucket(key, v), h] + t
              else if key == h.key then [Bucket(key, Join(h.totals, v))] + t
              else [h] + Merge(t, key, v)
  {
    assert ([h] + t)[1..] == t;
  }

  lemma {:induction false} MergeCommutes(series: seq<Bucket>, k1: string, a: Totals, k2: string, b: Totals)
    ensures Merge(Merge(series, k1, a), k2, b) == Merge(Merge(series, k2, b), k1, a)
  {
    if k1 == k2 {
      MergeSameKey(series, k1, a, b);
      MergeSameKey(series, k1, b, a);
    } else {
      TextLeqTotal(k1, k2);
      if Before(k1, k2) {
        MergeCommutesOrdered(series, k1, a, k2, b);
      } else {
        MergeCommutesOrdered(series, k2, b, k1, a);
      }
    }
  }

  lemma {:induction false} MergeCommutesOrdered(series: seq<Bucket>, k1: string, a: Totals, k2: string, b: Totals)
    requires Before(k1, k2)
    ensures Merge(Merge(series, k1, a), k2, b) == Merge(Merge(series, k2, b), k1, a)
  {
    TextLeqTotal(k1, k2);
    if series == [] {
      MergeStep(Bucket(k1, a), [], k2, b);
      MergeStep(Bucket(k2, b), [], k1, a);
    } else {
      var h, t := series[0], series[1..];
      assert series == [h] + t;
      TextLeqTotal(k1, h.key);
      TextLeqTotal(k2, h.key);
      if Before(k2, h.key) {
        BeforeTrans(k1, k2, h.key);
        MergeStep(Bucket(k1, a), series, k2, b);
        MergeStep(Bucket(k2, b), series, k1, a);
      } else if k2 == h.key {
        MergeStep(Bucket(k1, a), series, k2, b);
        MergeStep(Bucket(k2, Join(h.totals, b)), t, k1, a);
      } else if Before(k1, h.key) {
        MergeStep(Bucket(k1, a), series, k2, b);
        MergeStep(h, Merge(t, k2, b), k1, a);
      } else if k1 == h.key {
        MergeStep(Bucket(k1, Join(h.totals, a)), t, k2, b);
        MergeStep(h, Merge(t, k2, b), k1, a);
      } else {
        MergeCommutesOrdered(t, k1, a, k2, b);
        MergeStep(h, Merge(t, k1, a), k2, b);
        MergeStep(h, Merge(t, k2, b), k1, a);
      }
    }
  }

  lemma {:induction false} RollUpMerge(series: seq<Bucket>, key: string, t: Totals)
    ensures RollUp(Merge(series, key, t)) == Merge(RollUp(series), DayOf(key), t)
  {
    var m := Merge(series, key, t);
    if series == [] || Before(key, series[0].key) {
      assert m[1..] == series;
    } else if key == series[0].key {
      assert m[1..] == series[1..];
      MergeSameKey(RollUp(series[1..]), DayOf(key), series[0].totals, t);
    } else {
      assert m[1..] == Merge(series[1..], key, t);
      RollUpMerge(series[1..], key, t);
      MergeCommutes(RollUp(series[1..]), DayOf(key), t, DayOf(series[0].key), series[0].totals);
    }
  }

  /** toISOString() always writes a whole date. */
  predicate Stamped(rows: seq<Row>) {
    StampedTo(rows, 10)
  }

  lemma DayOfHour(stamp: string)
    requires 10 <= |stamp|
    ensures DayOf(BucketKey(Hour, stamp)) == BucketKey(Day, stamp)
  {
    assert Prefix(Prefix(stamp, 13) + ":00:00", 10) == Prefix(stamp, 10);
  }

  /** The daily series is the hourly series rolled up by date, bucket by bucket, including
      the least and greatest balances. */
  lemma {:induction false} DailyIsHourlyRolledUp(rows: seq<Row>, q: Query)
    requires Stamped(rows)
    ensures RollUp(Aggregate(rows, q, Hour)) == Aggregate(rows, q, Day)
  {
    if rows != [] {
      DailyIsHourlyRolledUp(Init(rows), q);
      AggregateExtend(rows, q, Hour);
      AggregateExtend(rows, q, Day);
      var r := Last(rows);
      assert r == rows[|rows| - 1];
      if Matches(q, r) {
        RollUpMerge(Aggregate(Init(rows), q, Hour), BucketKey(Hour, r.emittedAt), Single(r));
        DayOfHour(r.emittedAt);
      }
    }
  }
}
