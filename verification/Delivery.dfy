/** Neither repeated nor reordered delivery of events shows in what the cache answers. */
module Delivery {
  import opened Prelude
  import opened Billing
  import opened Store
  import Series

  // ---- The order of the rows ----

  lemma MetricsStepCommutes(q: Query, rows: seq<Row>)
    requires NoTies(rows)
    ensures Commutes(MetricsStep(q), rows)
  {
    forall t: seq<Row>, a: Row, b: Row | a in rows && b in rows
      ensures MetricsStep(q)(MetricsStep(q)(t, a), b) == MetricsStep(q)(MetricsStep(q)(t, b), a)
    {
      if Matches(q, a) && Matches(q, b) {
        InsertBySeqCommutes(t, a, b);
      }
    }
  }

  lemma SummarizeCommutes(rows: seq<Row>)
    ensures Commutes(Summarize, rows)
  {
    forall t: map<Address, Summary>, a: Row, b: Row
      ensures Summarize(Summarize(t, a), b) == Summarize(Summarize(t, b), a)
    {
      if a.device != b.device {
        assert t[a.device := Summarize(t, a)[a.device]][b.device := Summarize(t, b)[b.device]]
            == t[b.device := Summarize(t, b)[b.device]][a.device := Summarize(t, a)[a.device]];
      }
    }
  }

  lemma AggregateStepCommutes(q: Query, g: Series.Granularity, rows: seq<Row>)
    ensures Commutes(Series.AggregateStep(q, g), rows)
  {
    var f := Series.AggregateStep(q, g);
    forall t: seq<Series.Bucket>, a: Row, b: Row
      ensures f(f(t, a), b) == f(f(t, b), a)
    {
      Series.MergeCommutes(t, Series.BucketKey(g, a.emittedAt), Series.Single(a),
                           Series.BucketKey(g, b.emittedAt), Series.Single(b));
    }
  }

  /** Two tables holding the same rows answer every query alike, in whatever order the rows
      were inserted; for metricsFor this needs that no sequence number is tied. */
  lemma RowOrderIrrelevant(r1: seq<Row>, r2: seq<Row>, q: Query, g: Series.Granularity)
    requires multiset(r1) == multiset(r2)
    ensures ListDevices(r1) == ListDevices(r2)
    ensures LatestSequence(r1, q.device) == LatestSequence(r2, q.device)
    ensures Series.Aggregate(r1, q, g) == Series.Aggregate(r2, q, g)
    ensures NoTies(r1) ==> MetricsFor(r1, q) == MetricsFor(r2, q)
  {
    SummarizeCommutes(r1);
    FoldPermutation(Summarize, map[], r1, r2);
    var latest := LatestStep(q.device);
    assert Commutes(latest, r1);
    FoldPermutation(latest, None, r1, r2);
    AggregateStepCommutes(q, g, r1);
    FoldPermutation(Series.AggregateStep(q, g), [], r1, r2);
    if NoTies(r1) {
      MetricsStepCommutes(q, r1);
      FoldPermutation(MetricsStep(q), [], r1, r2);
    }
  }

  // ---- Repeated and reordered deliveries ----

  function IngestAll(rows: seq<Row>, batch: seq<Row>): seq<Row> {
    if batch == [] then rows else Ingest(IngestAll(rows, Init(batch)), Last(batch))
  }

  /** Re-delivering events the table already holds, any number of times and in any order,
      with whatever later clock readings, changes nothing. */
  lemma {:induction false} RedeliveryIgnored(rows: seq<Row>, batch: seq<Row>)
    requires forall i :: 0 <= i < |batch| ==> HasEvent(rows, batch[i].eventId)
    ensures IngestAll(rows, batch) == rows
  {
    if batch != [] {
      RedeliveryIgnored(rows, Init(batch));
      assert HasEvent(rows, batch[|batch| - 1].eventId);
    }
  }

  /** A row without the indexer's clock reading: only what the chain said. */
  function Facts(r: Row): Row {
    r.(emittedAt := "")
  }

  function Bare(rows: seq<Row>): seq<Row> {
    seq(|rows|, i requires 0 <= i < |rows| => Facts(rows[i]))
  }

  lemma BareExtend(rows: seq<Row>, r: Row)
    ensures Bare(rows + [r]) == Bare(rows) + [Facts(r)]
  {
  }

  predicate Keyed(rows: seq<Row>) {
    forall i, j :: 0 <= i < j < |rows| ==> rows[i].eventId != rows[j].eventId
  }

  /** One event has one content, however often it is delivered. */
  predicate OneContent(batch: seq<Row>) {
    forall i, j :: 0 <= i < |batch| && 0 <= j < |batch| && batch[i].eventId == batch[j].eventId
      ==> Facts(batch[i]) == Facts(batch[j])
  }

  predicate Delivers(batch: seq<Row>, fact: Row) {
    exists i :: 0 <= i < |batch| && Facts(batch[i]) == fact
  }

  lemma {:induction false} TableHolds(batch: seq<Row>, fact: Row)
    requires OneContent(batch)
    ensures Keyed(IngestAll([], batch))
    ensures Delivers(IngestAll([], batch), fact) <==> Delivers(batch, fact)
    decreases |batch|, 1
  {
    if batch != [] {
      var x, before := Last(batch), IngestAll([], Init(batch));
      assert OneContent(Init(batch));
      TableHolds(Init(batch), fact);
      assert batch == Init(batch) + [x];
      assert Delivers(batch, fact) <==> Delivers(Init(batch), fact) || Facts(x) == fact by {
        if Delivers(Init(batch), fact) {
          var i :| 0 <= i < |Init(batch)| && Facts(Init(batch)[i]) == fact;
          assert Facts(batch[i]) == fact;
        }
        if Facts(x) == fact {
          assert Facts(batch[|batch| - 1]) == fact;
        }
      }
      if HasEvent(before, x.eventId) {
        SameEventSameFacts(batch, x);
      } else {
        ExtendDelivers(before, x, fact);
      }
    }
  }

  lemma ExtendDelivers(rows: seq<Row>, x: Row, fact: Row)
    ensures Delivers(rows + [x], fact) <==> Delivers(rows, fact) || Facts(x) == fact
  {
    var all := rows + [x];
    if Delivers(rows, fact) {
      var i :| 0 <= i < |rows| && Facts(rows[i]) == fact;
      assert Facts(all[i]) == fact;
    }
    if Facts(x) == fact {
      assert Facts(all[|rows|]) == fact;
    }
  }

  lemma SameEventSameFacts(batch: seq<Row>, x: Row)
    requires OneContent(batch) && batch != [] && x == Last(batch)
    requires HasEvent(IngestAll([], Init(batch)), x.eventId)
    ensures Delivers(Init(batch), Facts(x))
    decreases |batch|, 0
  {
    var before := IngestAll([], Init(batch));
    var i :| 0 <= i < |before| && before[i].eventId == x.eventId;
    assert OneContent(Init(batch));
    assert Delivers(before, Facts(before[i]));
    TableHolds(Init(batch), Facts(before[i]));
    var j :| 0 <= j < |Init(batch)| && Facts(Init(batch)[j]) == Facts(before[i]);
    assert batch[j].eventId == before[i].eventId == batch[|batch| - 1].eventId;
  }

  lemma FreshFact(front: seq<Row>, x: Row)
    requires Keyed(front + [x])
    ensures !Delivers(front, Facts(x))
  {
    forall i | 0 <= i < |front| ensures Facts(front[i]) != Facts(x) {
      assert (front + [x])[i].eventId != (front + [x])[|front|].eventId;
    }
  }

  lemma {:induction false} KeyedMultiplicity(rows: seq<Row>, r: Row)
    requires Keyed(rows)
    ensures multiset(Bare(rows))[r] == if Delivers(rows, r) then 1 else 0
  {
    if rows != [] {
      var front, x := Init(rows), Last(rows);
      assert rows == front + [x];
      KeyedMultiplicity(front, r);
      BareExtend(front, x);
      ExtendDelivers(front, x, r);
      FreshFact(front, x);
    }
  }

  lemma {:induction false} FoldBare<T(!new)>(f: (T, Row) -> T, z: T, rows: seq<Row>)
    requires forall t: T, r: Row :: f(t, r) == f(t, Facts(r))
    ensures Fold(f, z, rows) == Fold(f, z, Bare(rows))
  {
    if rows != [] {
      FoldBare(f, z, Init(rows));
      assert rows == Init(rows) + [Last(rows)];
      BareExtend(Init(rows), Last(rows));
      assert Init(Bare(rows)) == Bare(Init(rows)) && Last(Bare(rows)) == Facts(Last(rows));
    }
  }

  lemma {:induction false} InsertBare(sorted: seq<Row>, r: Row)
    ensures Bare(InsertBySeq(sorted, r)) == InsertBySeq(Bare(sorted), Facts(r))
  {
    if sorted == [] || r.seqNo < sorted[0].seqNo {
    } else {
      InsertBare(sorted[1..], r);
      assert Bare(sorted)[1..] == Bare(sorted[1..]);
    }
  }

  lemma {:induction false} MetricsBare(rows: seq<Row>, device: Address)
    ensures Bare(MetricsFor(rows, Query(device, "", ""))) == MetricsFor(Bare(rows), Query(device, "", ""))
  {
    var q := Query(device, "", "");
    if rows != [] {
      MetricsBare(Init(rows), device);
      assert rows == Init(rows) + [Last(rows)];
      BareExtend(Init(rows), Last(rows));
      assert Init(Bare(rows)) == Bare(Init(rows)) && Last(Bare(rows)) == Facts(Last(rows));
      InsertBare(MetricsFor(Init(rows), q), Last(rows));
    }
  }

  lemma BareAnswers(t: seq<Row>, device: Address)
    ensures ListDevices(t) == ListDevices(Bare(t))
    ensures LatestSequence(t, device) == LatestSequence(Bare(t), device)
  {
    FoldBare(Summarize, map[], t);
    FoldBare(LatestStep(device), None, t);
  }

  lemma {:induction false} SameFactsSameTable(b1: seq<Row>, b2: seq<Row>)
    requires OneContent(b1) && OneContent(b2)
    requires forall r: Row :: Delivers(b1, r) <==> Delivers(b2, r)
    ensures multiset(Bare(IngestAll([], b1))) == multiset(Bare(IngestAll([], b2)))
  {
    var t1, t2 := IngestAll([], b1), IngestAll([], b2);
    forall r: Row ensures multiset(Bare(t1))[r] == multiset(Bare(t2))[r] {
      TableHolds(b1, r);
      TableHolds(b2, r);
      KeyedMultiplicity(t1, r);
      KeyedMultiplicity(t2, r);
    }
  }

  /** Every answer about a device in which the indexer's clock has no part is the same. */
  predicate AnswerAlike(t1: seq<Row>, t2: seq<Row>, device: Address) {
    && ListDevices(t1) == ListDevices(t2)
    && LatestSequence(t1, device) == LatestSequence(t2, device)
    && (NoTies(Bare(t1)) ==>
          Bare(MetricsFor(t1, Query(device, "", ""))) == Bare(MetricsFor(t2, Query(device, "", ""))))
  }

  /** Two delivery histories of the same events, each repeating and reordering as it likes
      and each reading its own clock, leave caches that agree on every answer in which the
      indexer's clock has no part. */
  lemma {:induction false} DeliveryIrrelevant(b1: seq<Row>, b2: seq<Row>, device: Address)
    requires OneContent(b1) && OneContent(b2)
    requires forall r: Row :: Delivers(b1, r) <==> Delivers(b2, r)
    ensures AnswerAlike(IngestAll([], b1), IngestAll([], b2), device)
  {
    var t1, t2 := IngestAll([], b1), IngestAll([], b2);
    SameFactsSameTable(b1, b2);
    RowOrderIrrelevant(Bare(t1), Bare(t2), Query(device, "", ""), Series.Day);
    BareAnswers(t1, device);
    BareAnswers(t2, device);
    MetricsBare(t1, device);
    MetricsBare(t2, device);
  }
}
