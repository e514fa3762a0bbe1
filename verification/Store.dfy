/** backend/src/db/store.js: the event cache, keyed on event_id, and its queries. A query is
    a fold over the table, so that "whatever order the rows came in" can be said once. */
module Store {
  import opened Prelude
  import opened Billing

  /** One row of meter_events. emittedAt is the indexer's own clock, not the chain's. */
  datatype Row = Row(eventId: nat, ledger: nat, device: Address, units: int, cost: int,
                     balanceAfter: int, seqNo: nat, ledgerTs: nat, emittedAt: string)

  datatype Cache = Cache(rows: seq<Row>, lastLedger: Option<nat>)

  function LastLedger(c: Cache): nat {
    if c.lastLedger.Some? then c.lastLedger.value else 0
  }

  predicate HasEvent(rows: seq<Row>, id: nat) {
    exists i :: 0 <= i < |rows| && rows[i].eventId == id
  }

  /** INSERT OR IGNORE on the unique event_id. */
  function Ingest(rows: seq<Row>, row: Row): seq<Row> {
    if HasEvent(rows, row.eventId) then rows else rows + [row]
  }

  class CacheStore {
    var rows: seq<Row>
    var meta: map<string, nat>

    function View(): Cache
      reads this
    {
      Cache(rows, if "last_ledger" in meta then Some(meta["last_ledger"]) else None)
    }

    constructor ()
      ensures View() == Cache([], None)
    {
      rows, meta := [], map[];
    }

    method GetLastLedger() returns (ledger: nat)
      ensures ledger == LastLedger(View())
    {
      ledger := if "last_ledger" in meta then meta["last_ledger"] else 0;
    }

    method SetLastLedger(ledger: nat)
      modifies this`meta
      ensures View() == old(View()).(lastLedger := Some(ledger))
    {
      meta := meta["last_ledger" := ledger];
    }

    method IngestRow(row: Row) returns (inserted: bool)
      modifies this`rows
      ensures View() == old(View()).(rows := Ingest(old(rows), row))
      ensures inserted <==> !HasEvent(old(rows), row.eventId)
    {
      var i := 0;
      while i < |rows|
        invariant 0 <= i <= |rows|
        invariant forall j :: 0 <= j < i ==> rows[j].eventId != row.eventId
      {
        if rows[i].eventId == row.eventId {
          return false;
        }
        i := i + 1;
      }
      rows := rows + [row];
      return true;
    }
  }

  // ---- Folding a table ----

  function Fold<T>(f: (T, Row) -> T, z: T, rows: seq<Row>): T {
    if rows == [] then z else f(Fold(f, z, Init(rows)), Last(rows))
  }

  lemma {:induction false} FoldAppend<T>(f: (T, Row) -> T, z: T, a: seq<Row>, b: seq<Row>)
    ensures Fold(f, z, a + b) == Fold(f, Fold(f, z, a), b)
  {
    if b == [] {
      assert a + b == a;
    } else {
      assert Init(a + b) == a + Init(b);
      FoldAppend(f, z, a, Init(b));
    }
  }

  ghost predicate Commutes<T(!new)>(f: (T, Row) -> T, rows: seq<Row>) {
    forall t: T, a: Row, b: Row | a in rows && b in rows :: f(f(t, a), b) == f(f(t, b), a)
  }

  lemma {:induction false} FoldMoveLast<T(!new)>(f: (T, Row) -> T, z: T, x: Row, b: seq<Row>)
    requires Commutes(f, b + [x])
    ensures Fold(f, f(z, x), b) == f(Fold(f, z, b), x)
  {
    if b != [] {
      assert forall r :: r in Init(b) + [x] ==> r in b + [x];
      FoldMoveLast(f, z, x, Init(b));
      assert Last(b) in b + [x] && x in b + [x];
    }
  }

  lemma Cancel(m: multiset<Row>, n: multiset<Row>, x: Row)
    requires m + multiset{x} == n + multiset{x}
    ensures m == n
  {
    assert m == m + multiset{x} - multiset{x};
  }

  lemma TakeOut(r1: seq<Row>, r2: seq<Row>) returns (a: seq<Row>, b: seq<Row>)
    requires r1 != [] && multiset(r1) == multiset(r2)
    ensures r2 == a + [Last(r1)] + b && multiset(Init(r1)) == multiset(a + b)
  {
    var front, x := Init(r1), Last(r1);
    assert r1 == front + [x];
    assert x in multiset(r2);
    var i :| 0 <= i < |r2| && r2[i] == x;
    a, b := r2[..i], r2[i + 1..];
    assert r2 == a + [x] + b;
    assert multiset(r1) == multiset(front) + multiset{x};
    assert multiset(r2) == multiset(a + b) + multiset{x};
    Cancel(multiset(front), multiset(a + b), x);
  }

  lemma FoldMove<T(!new)>(f: (T, Row) -> T, z: T, a: seq<Row>, x: Row, b: seq<Row>)
    requires Commutes(f, b + [x])
    ensures Fold(f, z, a + [x] + b) == f(Fold(f, z, a + b), x)
  {
    FoldAppend(f, z, a + [x], b);
    FoldAppend(f, z, a, b);
    assert Init(a + [x]) == a;
    FoldMoveLast(f, Fold(f, z, a), x, b);
  }

  /** A fold whose steps commute sees only which rows there are. */
  lemma {:induction false} FoldPermutation<T(!new)>(f: (T, Row) -> T, z: T, r1: seq<Row>, r2: seq<Row>)
    requires multiset(r1) == multiset(r2) && Commutes(f, r1)
    ensures Fold(f, z, r1) == Fold(f, z, r2)
    decreases |r1|
  {
    assert |multiset(r1)| == |r1| && |multiset(r2)| == |r2|;
    if r1 != [] {
      var a, b := TakeOut(r1, r2);
      var x := Last(r1);
      forall r | r in b + [x] ensures r in r1 {
        assert r in r2;
        assert r in multiset(r2);
      }
      FoldPermutation(f, z, Init(r1), a + b);
      FoldMove(f, z, a, x, b);
    }
  }

  // ---- metricsFor ----

  /** Text comparison, as SQL compares emitted_at with the bounds of a request. */
  predicate TextLeq(a: string, b: string) {
    a == [] || (b != [] && (a[0] < b[0] || (a[0] == b[0] && TextLeq(a[1..], b[1..]))))
  }

  /** The order of a dictionary, said without recursion: a starts b, or the two agree up to some
      place where a has the smaller character. */
  ghost predicate Dictionary(a: string, b: string) {
    a <= b || exists i :: DiffersUpwards(a, b, i)
  }

  predicate DiffersUpwards(a: string, b: string, i: int) {
    0 <= i < |a| && i < |b| && a[..i] == b[..i] && a[i] < b[i]
  }

  lemma {:induction false} TextLeqMeaning(a: string, b: string)
    ensures TextLeq(a, b) <==> Dictionary(a, b)
  {
    forall i | DiffersUpwards(a, b, i) ensures a[0] <= b[0] {
      if i > 0 {
        assert a[..i][0] == b[..i][0];
      }
    }
    if a != [] && b != [] && a[0] == b[0] {
      TextLeqMeaning(a[1..], b[1..]);
      assert a == [a[0]] + a[1..] && b == [b[0]] + b[1..];
      if i :| DiffersUpwards(a[1..], b[1..], i) {
        assert a[..i + 1] == [a[0]] + a[1..][..i] && b[..i + 1] == [b[0]] + b[1..][..i];
        assert DiffersUpwards(a, b, i + 1);
      }
      if i :| DiffersUpwards(a, b, i) {
        assert a[1..][..i - 1] == a[..i][1..] && b[1..][..i - 1] == b[..i][1..];
        assert DiffersUpwards(a[1..], b[1..], i - 1);
      }
    } else if a != [] && b != [] && a[0] < b[0] {
      assert DiffersUpwards(a, b, 0);
    }
  }

  /** An absent or empty bound does not restrict. */
  datatype Query = Query(device: Address, from: string, to: string)

  predicate Matches(q: Query, r: Row) {
    && r.device == q.device
    && (q.from == "" || TextLeq(q.from, r.emittedAt))
    && (q.to == "" || TextLeq(r.emittedAt, q.to))
  }

  function Matching(q: Query, rows: seq<Row>): seq<Row> {
    if rows == [] then []
    else if Matches(q, Last(rows)) then Matching(q, Init(rows)) + [Last(rows)]
    else Matching(q, Init(rows))
  }

  /** The rows a request is for: the device's own, stamped not before from and not after to. */
  ghost predicate Wanted(q: Query, r: Row) {
    && r.device == q.device
    && (q.from == "" || Dictionary(q.from, r.emittedAt))
    && (q.to == "" || Dictionary(r.emittedAt, q.to))
  }

  lemma MatchesExactly(q: Query, r: Row)
    ensures Matches(q, r) <==> Wanted(q, r)
  {
    TextLeqMeaning(q.from, r.emittedAt);
    TextLeqMeaning(r.emittedAt, q.to);
  }

  lemma {:induction false} MatchingExactly(rows: seq<Row>, q: Query, r: Row)
    ensures multiset(Matching(q, rows))[r] == if Wanted(q, r) then multiset(rows)[r] else 0
  {
    if rows != [] {
      MatchingExactly(Init(rows), q, r);
      MatchesExactly(q, Last(rows));
      assert rows == Init(rows) + [Last(rows)];
    }
  }

  lemma {:induction false} MatchingAppend(rows: seq<Row>, more: seq<Row>, q: Query)
    ensures Matching(q, rows + more) == Matching(q, rows) + Matching(q, more)
  {
    if more == [] {
      assert rows + more == rows;
    } else {
      assert Init(rows + more) == rows + Init(more);
      MatchingAppend(rows, Init(more), q);
    }
  }

  function InsertBySeq(sorted: seq<Row>, r: Row): seq<Row> {
    if sorted == [] || r.seqNo < sorted[0].seqNo then [r] + sorted
    else [sorted[0]] + InsertBySeq(sorted[1..], r)
  }

  function MetricsStep(q: Query): (seq<Row>, Row) -> seq<Row> {
    (sorted: seq<Row>, r: Row) => if Matches(q, r) then InsertBySeq(sorted, r) else sorted
  }

  function MetricsFor(rows: seq<Row>, q: Query): seq<Row> {
    Fold(MetricsStep(q), [], rows)
  }

  predicate SortedBySeq(rows: seq<Row>) {
    forall i, j :: 0 <= i < j < |rows| ==> rows[i].seqNo <= rows[j].seqNo
  }

  predicate AllFrom(rows: seq<Row>, least: int) {
    forall i :: 0 <= i < |rows| ==> least <= rows[i].seqNo
  }

  lemma {:induction false} InsertBySeqLeast(sorted: seq<Row>, r: Row, least: int)
    requires AllFrom(sorted, least) && least <= r.seqNo
    ensures AllFrom(InsertBySeq(sorted, r), least)
  {
    if sorted != [] && sorted[0].seqNo <= r.seqNo {
      InsertBySeqLeast(sorted[1..], r, least);
    }
  }

  lemma SortedCons(r: Row, rest: seq<Row>)
    requires SortedBySeq(rest) && AllFrom(rest, r.seqNo)
    ensures SortedBySeq([r] + rest)
  {
  }

  lemma {:induction false} InsertBySeqSorted(sorted: seq<Row>, r: Row)
    requires SortedBySeq(sorted)
    ensures SortedBySeq(InsertBySeq(sorted, r))
  {
    if sorted == [] {
    } else if r.seqNo < sorted[0].seqNo {
      SortedCons(r, sorted);
    } else {
      InsertBySeqSorted(sorted[1..], r);
      InsertBySeqLeast(sorted[1..], r, sorted[0].seqNo);
      SortedCons(sorted[0], InsertBySeq(sorted[1..], r));
    }
  }

  lemma {:induction false} InsertBySeqContent(sorted: seq<Row>, r: Row)
    ensures multiset(InsertBySeq(sorted, r)) == multiset(sorted) + multiset{r}
  {
    if sorted != [] && sorted[0].seqNo <= r.seqNo {
      InsertBySeqContent(sorted[1..], r);
      assert sorted == [sorted[0]] + sorted[1..];
    }
  }

  /** metricsFor returns exactly the matching rows, in ascending sequence. */
  lemma {:induction false} MetricsForMeaning(rows: seq<Row>, q: Query)
    ensures SortedBySeq(MetricsFor(rows, q))
    ensures multiset(MetricsFor(rows, q)) == multiset(Matching(q, rows))
  {
    if rows != [] {
      MetricsForMeaning(Init(rows), q);
      if Matches(q, Last(rows)) {
        InsertBySeqSorted(MetricsFor(Init(rows), q), Last(rows));
        InsertBySeqContent(MetricsFor(Init(rows), q), Last(rows));
      }
    }
  }

  /** metricsFor, without its own filter and sort: every row the request wants, as often as the
      table holds it, no other row, and sequence numbers never descending. */
  lemma MetricsForExactly(rows: seq<Row>, q: Query, r: Row)
    ensures multiset(MetricsFor(rows, q))[r] == if Wanted(q, r) then multiset(rows)[r] else 0
    ensures forall i, j :: 0 <= i < j < |MetricsFor(rows, q)| ==>
              MetricsFor(rows, q)[i].seqNo <= MetricsFor(rows, q)[j].seqNo
  {
    MetricsForMeaning(rows, q);
    MatchingExactly(rows, q, r);
  }

  /** Only equal rows may share a device and a sequence number. */
  predicate NoTies(rows: seq<Row>) {
    forall a, b :: a in rows && b in rows && a.device == b.device && a.seqNo == b.seqNo ==> a == b
  }

  lemma {:induction false} InsertBySeqCommutes(t: seq<Row>, a: Row, b: Row)
    requires a.seqNo == b.seqNo ==> a == b
    ensures InsertBySeq(InsertBySeq(t, a), b) == InsertBySeq(InsertBySeq(t, b), a)
  {
    if t != [] {
      InsertBySeqCommutes(t[1..], a, b);
      assert ([t[0]] + InsertBySeq(t[1..], a))[1..] == InsertBySeq(t[1..], a);
      assert ([t[0]] + InsertBySeq(t[1..], b))[1..] == InsertBySeq(t[1..], b);
    }
    assert ([a] + t)[1..] == t && ([b] + t)[1..] == t;
  }

  // ---- latestSequence ----

  function LatestStep(device: Address): (Option<int>, Row) -> Option<int> {
    (m: Option<int>, r: Row) =>
      if r.device != device || (m.Some? && r.seqNo <= m.value) then m else Some(r.seqNo)
  }

  /** MAX(seq) over the device's rows, and 0 when there is none. */
  function LatestSequence(rows: seq<Row>, device: Address): int {
    var m := Fold(LatestStep(device), None, rows);
    if m.Some? then m.value else 0
  }

  // ---- listDevices ----

  datatype Summary = Summary(eventCount: nat, totalUnits: int, totalCost: int, lastLedger: nat, lastActivity: nat)

  function Summarize(list: map<Address, Summary>, r: Row): map<Address, Summary> {
    list[r.device :=
      if r.device in list then
        var s := list[r.device];
        Summary(s.eventCount + 1, s.totalUnits + r.units, s.totalCost + r.cost,
                if s.lastLedger < r.ledger then r.ledger else s.lastLedger,
                if s.lastActivity < r.ledgerTs then r.ledgerTs else s.lastActivity)
      else Summary(1, r.units, r.cost, r.ledger, r.ledgerTs)]
  }

  function ListDevices(rows: seq<Row>): map<Address, Summary> {
    Fold(Summarize, map[], rows)
  }

  function Own(rows: seq<Row>, device: Address): seq<Row> {
    Matching(Query(device, "", ""), rows)
  }

  function TotalUnits(rows: seq<Row>): int {
    if rows == [] then 0 else TotalUnits(Init(rows)) + Last(rows).units
  }

  function TotalCost(rows: seq<Row>): int {
    if rows == [] then 0 else TotalCost(Init(rows)) + Last(rows).cost
  }

  lemma OwnExtend(rows: seq<Row>, r: Row, device: Address)
    ensures Own(rows + [r], device) == if r.device == device then Own(rows, device) + [r] else Own(rows, device)
  {
    assert Init(rows + [r]) == rows;
  }

  lemma TotalsExtend(rows: seq<Row>, r: Row)
    ensures TotalUnits(rows + [r]) == TotalUnits(rows) + r.units
    ensures TotalCost(rows + [r]) == TotalCost(rows) + r.cost
  {
    assert Init(rows + [r]) == rows;
  }

  predicate Greatest(n: int, values: seq<int>) {
    n in values && forall i :: 0 <= i < |values| ==> values[i] <= n
  }

  function Ledgers(rows: seq<Row>): seq<int> {
    seq(|rows|, i requires 0 <= i < |rows| => rows[i].ledger)
  }

  function Times(rows: seq<Row>): seq<int> {
    seq(|rows|, i requires 0 <= i < |rows| => rows[i].ledgerTs)
  }

  /** A summary is what these rows add up to. */
  predicate SumsUp(s: Summary, own: seq<Row>) {
    && s.eventCount == |own| && s.totalUnits == TotalUnits(own) && s.totalCost == TotalCost(own)
    && Greatest(s.lastLedger, Ledgers(own)) && Greatest(s.lastActivity, Times(own))
  }

  lemma GreatestExtend(n: int, values: seq<int>, v: int)
    requires values == [] || Greatest(n, values)
    ensures Greatest(if values == [] || n < v then v else n, values + [v])
  {
    assert (values + [v])[|values|] == v;
  }

  lemma SumsUpExtend(list: map<Address, Summary>, own: seq<Row>, r: Row)
    requires if own == [] then r.device !in list else r.device in list && SumsUp(list[r.device], own)
    ensures SumsUp(Summarize(list, r)[r.device], own + [r])
  {
    TotalsExtend(own, r);
    assert Ledgers(own + [r]) == Ledgers(own) + [r.ledger];
    assert Times(own + [r]) == Times(own) + [r.ledgerTs];
    GreatestExtend(if own == [] then 0 else list[r.device].lastLedger, Ledgers(own), r.ledger);
    GreatestExtend(if own == [] then 0 else list[r.device].lastActivity, Times(own), r.ledgerTs);
  }

  /** The listing holds one summary per device with rows, and each summary is what those
      rows add up to. */
  lemma {:induction false} ListDevicesMeaning(rows: seq<Row>, device: Address)
    ensures var own, list := Own(rows, device), ListDevices(rows);
            if own == [] then device !in list else device in list && SumsUp(list[device], own)
  {
    if rows != [] {
      ListDevicesMeaning(Init(rows), device);
      if Last(rows).device == device {
        SumsUpExtend(ListDevices(Init(rows)), Own(Init(rows), device), Last(rows));
      }
    }
  }

  /** latestSequence is the greatest sequence number among the device's rows, or 0. */
  lemma {:induction false} LatestSequenceMeaning(rows: seq<Row>, device: Address)
    ensures var own, m := Own(rows, device), Fold(LatestStep(device), None, rows);
            if own == [] then m == None && LatestSequence(rows, device) == 0
            else && m == Some(LatestSequence(rows, device))
                 && (forall i :: 0 <= i < |own| ==> own[i].seqNo <= LatestSequence(rows, device))
                 && (exists i :: 0 <= i < |own| && own[i].seqNo == LatestSequence(rows, device))
  {
    if rows != [] {
      var r, before := Last(rows), Own(Init(rows), device);
      LatestSequenceMeaning(Init(rows), device);
      if r.device == device {
        var own := before + [r];
        assert Own(rows, device) == own;
        assert own[|before|] == r && forall i :: 0 <= i < |before| ==> own[i] == before[i];
      } else {
        assert Own(rows, device) == before;
      }
    }
  }
}
