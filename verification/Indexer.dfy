/** backend/src/indexer/indexer.js as a step machine: one step per await, so that polls may
    interleave with each other, with a growing chain, and with crashes at any point. */
module Indexer {
  import opened Prelude
  import opened Billing
  import opened Store

  const PAGE_LIMIT: nat := 200

  /** The contract's events in chain order; ledgers up to latest are closed. */
  datatype Chain = Chain(log: seq<Entry>, latest: nat)

  /** An event's id is derived from its place on the chain. */
  datatype RpcEvent = RpcEvent(id: nat, ledger: nat, event: Event)
  datatype Page = Page(events: seq<RpcEvent>, cursor: Option<nat>, latestLedger: nat)
  datatype Request = FromLedger(startLedger: nat) | FromCursor(cursor: nat)

  // ---- The chain ----

  predicate Sorted(log: seq<Entry>) {
    && (forall i :: 0 <= i < |log| ==> 1 <= log[i].ledger)
    && (forall i, j :: 0 <= i < j < |log| ==> log[i].ledger <= log[j].ledger)
  }

  predicate ChainOk(c: Chain) {
    Sorted(c.log) && forall i :: 0 <= i < |c.log| ==> c.log[i].ledger <= c.latest + 1
  }

  /** How many events lie in ledgers up to this one. */
  function Upto(log: seq<Entry>, ledger: nat): nat {
    if log == [] then 0
    else if Last(log).ledger <= ledger then |log|
    else Upto(Init(log), ledger)
  }

  function Visible(c: Chain): nat {
    Upto(c.log, c.latest)
  }

  lemma {:induction false} UptoMeaning(log: seq<Entry>, ledger: nat)
    requires Sorted(log)
    ensures Upto(log, ledger) <= |log|
    ensures forall i :: 0 <= i < Upto(log, ledger) ==> log[i].ledger <= ledger
    ensures forall i :: Upto(log, ledger) <= i < |log| ==> ledger < log[i].ledger
  {
    if log != [] && Last(log).ledger > ledger {
      UptoMeaning(Init(log), ledger);
    }
  }

  lemma {:induction false} UptoIs(log: seq<Entry>, ledger: nat, n: nat)
    requires Sorted(log) && n <= |log|
    requires forall i :: 0 <= i < n ==> log[i].ledger <= ledger
    requires forall i :: n <= i < |log| ==> ledger < log[i].ledger
    ensures Upto(log, ledger) == n
  {
    if n < |log| {
      UptoIs(Init(log), ledger, n);
    }
  }

  /** The chain grows at its open end only: closed ledgers never change. */
  predicate Grows(c: Chain, c': Chain) {
    && ChainOk(c) && ChainOk(c')
    && c.log <= c'.log
    && c.latest <= c'.latest
    && forall i :: |c.log| <= i < |c'.log| ==> c.latest < c'.log[i].ledger
  }

  lemma UptoStable(c: Chain, c': Chain, ledger: nat)
    requires Grows(c, c') && ledger <= c.latest
    ensures Upto(c'.log, ledger) == Upto(c.log, ledger)
  {
    UptoMeaning(c.log, ledger);
    UptoIs(c'.log, ledger, Upto(c.log, ledger));
  }

  lemma {:induction false} UptoMonotone(log: seq<Entry>, l1: nat, l2: nat)
    requires Sorted(log) && l1 <= l2
    ensures Upto(log, l1) <= Upto(log, l2)
  {
    if log != [] && l1 < Last(log).ledger {
      UptoMeaning(log, l1);
      UptoMonotone(Init(log), l1, l2);
    }
  }

  // ---- getEvents ----

  function Position(c: Chain, r: Request): nat {
    match r
    case FromLedger(s) => if s == 0 then 0 else Upto(c.log, s - 1)
    case FromCursor(p) => p
  }

  function EventAt(log: seq<Entry>, i: nat): RpcEvent
    requires i < |log|
  {
    RpcEvent(i, log[i].ledger, log[i].event)
  }

  /** A page is filled in chain order from the requested place up to the limit or the last
      closed ledger, and its cursor points just behind it. */
  function GetEvents(c: Chain, r: Request): Page {
    var from := Position(c, r);
    var n := if from + PAGE_LIMIT <= Visible(c) then PAGE_LIMIT
             else if from <= Visible(c) then Visible(c) - from else 0;
    Page(seq(n, i requires 0 <= i < n =>
               if from + i < |c.log| then EventAt(c.log, from + i) else RpcEvent(0, 0, Settled(SELF, 0))),
         Some(from + n), c.latest)
  }

  // ---- poll(), await by await ----

  datatype Poll =
    | Begin
    | HaveStart(startLedger: nat)
    | Fetching(startLedger: nat, lastProcessed: nat, cursor: Option<nat>)
    | Handling(startLedger: nat, lastProcessed: nat, page: Page, next: nat)
    | Rereading(lastProcessed: nat, latestLedger: nat)
    | Writing(newWatermark: nat)
    | Finished

  function RequestOf(p: Poll): Request
    requires p.Fetching?
  {
    if p.cursor.Some? then FromCursor(p.cursor.value) else FromLedger(p.startLedger)
  }

  function RowOf(e: RpcEvent, stamp: string): Row
    requires e.event.Metered?
  {
    var m := e.event;
    Row(e.id, e.ledger, m.device, m.units, m.cost, m.balanceAfter, m.seqNo, m.ledgerTs, stamp)
  }

  /** handleEvent: only billing events reach the cache. */
  function HandleEvent(rows: seq<Row>, e: RpcEvent, stamp: string): seq<Row> {
    if e.event.Metered? then Ingest(rows, RowOf(e, stamp)) else rows
  }

  /** The next await of a poll. page is the RPC's answer, stamp the wall clock's. */
  function Next(p: Poll, cache: Cache, page: Page, stamp: string): (Poll, Cache) {
    match p
    case Begin => (HaveStart(LastLedger(cache) + 1), cache)
    case HaveStart(s) => (Fetching(s, LastLedger(cache), None), cache)
    case Fetching(s, lp, _) => (Handling(s, lp, page, 0), cache)
    case Handling(s, lp, pg, i) =>
      if i < |pg.events| then
        var e := pg.events[i];
        (Handling(s, if e.ledger > lp then e.ledger else lp, pg, i + 1),
         cache.(rows := HandleEvent(cache.rows, e, stamp)))
      else if |pg.events| < PAGE_LIMIT || pg.cursor.None? then (Rereading(lp, pg.latestLedger), cache)
      else (Fetching(s, lp, pg.cursor), cache)
    case Rereading(lp, latest) =>
      var last := LastLedger(cache);
      var mark := if lp > last then lp else latest;
      (if mark > last then Writing(mark) else Finished, cache)
    case Writing(mark) => (Finished, cache.(lastLedger := Some(mark)))
    case Finished => (Finished, cache)
  }

  // ---- What the cache holds ----

  /** The places of the billing events, in chain order. */
  function Meters(log: seq<Entry>): (ps: seq<nat>) {
    if log == [] then []
    else if Last(log).event.Metered? then Meters(Init(log)) + [|log| - 1]
    else Meters(Init(log))
  }

  lemma {:induction false} MetersMeaning(log: seq<Entry>)
    ensures forall k :: 0 <= k < |Meters(log)| ==> Meters(log)[k] < |log| && log[Meters(log)[k]].event.Metered?
    ensures forall k, l :: 0 <= k < l < |Meters(log)| ==> Meters(log)[k] < Meters(log)[l]
  {
    if log != [] {
      MetersMeaning(Init(log));
    }
  }

  lemma {:induction false} MetersPrefix(log: seq<Entry>, n: nat)
    requires n <= |log|
    ensures Meters(log[..n]) <= Meters(log)
  {
    if n < |log| {
      MetersPrefix(Init(log), n);
      assert Init(log)[..n] == log[..n];
    } else {
      assert log[..n] == log;
    }
  }

  lemma {:induction false} MetersStep(log: seq<Entry>, n: nat)
    requires n < |log|
    ensures var before := Meters(log[..n]);
            Meters(log[..n + 1]) == if log[n].event.Metered? then before + [n] else before
    ensures log[n].event.Metered? ==> |Meters(log[..n])| < |Meters(log)| && Meters(log)[|Meters(log[..n])|] == n
  {
    assert Init(log[..n + 1]) == log[..n] && Last(log[..n + 1]) == log[n];
    MetersPrefix(log, n + 1);
  }

  lemma MetersMonotone(log: seq<Entry>, n: nat, m: nat)
    requires n <= m <= |log|
    ensures |Meters(log[..n])| <= |Meters(log[..m])|
  {
    MetersPrefix(log[..m], n);
    assert log[..m][..n] == log[..n];
  }

  /** The row is the record of the billing event at this place. */
  predicate Records(row: Row, log: seq<Entry>, place: nat) {
    && place < |log| && log[place].event.Metered?
    && row == RowOf(EventAt(log, place), row.emittedAt)
  }

  /** Row k is the k-th billing event of the contract: no gap, no duplicate, in order. */
  ghost predicate RowsArePrefix(log: seq<Entry>, rows: seq<Row>) {
    && |rows| <= |Meters(log)|
    && forall k :: 0 <= k < |rows| ==> Records(rows[k], log, Meters(log)[k])
  }

  /** Every billing event before this place is in the cache. */
  predicate Covered(log: seq<Entry>, rows: seq<Row>, place: nat) {
    place <= |log| && |Meters(log[..place])| <= |rows|
  }

  /** Every billing event up to this ledger is in the cache, and the ledger is closed. */
  predicate Safe(c: Chain, rows: seq<Row>, ledger: nat) {
    ledger <= c.latest && Covered(c.log, rows, Upto(c.log, ledger))
  }

  /** The cache holds a prefix of the closed billing events, and its watermark is safe. */
  ghost predicate CacheOk(c: Chain, cache: Cache) {
    && RowsArePrefix(c.log, cache.rows)
    && |cache.rows| <= |Meters(c.log[..Bounded(c.log, Visible(c))])|
    && Safe(c, cache.rows, LastLedger(cache))
  }

  function Bounded(log: seq<Entry>, n: nat): (m: nat)
    ensures m <= |log| && (n <= |log| ==> m == n)
  {
    if n <= |log| then n else |log|
  }

  /** The page is what the RPC promised, read from this place of the chain. */
  ghost predicate PageOk(c: Chain, pg: Page, from: nat) {
    && pg.latestLedger <= c.latest
    && pg.cursor == Some(from + |pg.events|)
    && from + |pg.events| <= Bounded(c.log, Upto(c.log, pg.latestLedger))
    && (|pg.events| < PAGE_LIMIT ==> from + |pg.events| == Upto(c.log, pg.latestLedger))
    && forall j :: 0 <= j < |pg.events| ==> pg.events[j] == EventAt(c.log, from + j)
  }

  ghost predicate PollOk(c: Chain, rows: seq<Row>, p: Poll) {
    match p
    case Begin => true
    case HaveStart(s) => 1 <= s && Safe(c, rows, s - 1)
    case Fetching(s, lp, cursor) =>
      && 1 <= s && Safe(c, rows, s - 1)
      && lp <= c.latest
      && (cursor.Some? ==> cursor.value <= Visible(c) && Covered(c.log, rows, cursor.value))
    case Handling(s, lp, pg, i) =>
      && 1 <= s && Safe(c, rows, s - 1)
      && lp <= pg.latestLedger
      && i <= |pg.events|
      && pg.cursor.Some? && |pg.events| <= pg.cursor.value
      && PageOk(c, pg, pg.cursor.value - |pg.events|)
      && Covered(c.log, rows, pg.cursor.value - |pg.events| + i)
    case Rereading(lp, latest) => lp <= latest && Safe(c, rows, latest)
    case Writing(mark) => Safe(c, rows, mark)
    case Finished => true
  }

  // ---- Every step keeps it ----

  lemma SafeDownward(c: Chain, rows: seq<Row>, l1: nat, l2: nat)
    requires ChainOk(c) && l1 <= l2 && Safe(c, rows, l2)
    ensures Safe(c, rows, l1)
  {
    UptoMonotone(c.log, l1, l2);
    UptoMeaning(c.log, l2);
    MetersMonotone(c.log, Upto(c.log, l1), Upto(c.log, l2));
  }

  lemma VisibleBound(c: Chain)
    requires ChainOk(c)
    ensures Visible(c) <= |c.log| && Bounded(c.log, Visible(c)) == Visible(c)
  {
    UptoMeaning(c.log, c.latest);
  }

  /** A billing event is already in the table exactly when its place in the count is. */
  lemma HasMeter(log: seq<Entry>, rows: seq<Row>, place: nat)
    requires RowsArePrefix(log, rows) && place < |log| && log[place].event.Metered?
    ensures HasEvent(rows, place) <==> |Meters(log[..place])| < |rows|
  {
    MetersStep(log, place);
    MetersMeaning(log);
    var k := |Meters(log[..place])|;
    if k < |rows| {
      assert Records(rows[k], log, Meters(log)[k]);
    } else {
      forall i | 0 <= i < |rows| ensures rows[i].eventId != place {
        assert Records(rows[i], log, Meters(log)[i]);
        assert Meters(log)[i] < Meters(log)[k];
      }
    }
  }

  /** Handling the event at a covered place covers the next one and keeps the prefix. */
  lemma HandleKeepsPrefix(c: Chain, rows: seq<Row>, place: nat, stamp: string)
    requires ChainOk(c) && RowsArePrefix(c.log, rows) && Covered(c.log, rows, place) && place < Visible(c)
    requires |rows| <= |Meters(c.log[..Bounded(c.log, Visible(c))])|
    ensures place < |c.log|
    ensures var rows' := HandleEvent(rows, EventAt(c.log, place), stamp);
            && rows <= rows'
            && RowsArePrefix(c.log, rows')
            && |rows'| <= |Meters(c.log[..Bounded(c.log, Visible(c))])|
            && Covered(c.log, rows', place + 1)
  {
    VisibleBound(c);
    MetersStep(c.log, place);
    MetersMonotone(c.log, place + 1, Visible(c));
    if c.log[place].event.Metered? {
      HasMeter(c.log, rows, place);
      if |Meters(c.log[..place])| == |rows| {
        NextRowRecords(c.log, rows, place, stamp);
      }
    }
  }

  lemma NextRowRecords(log: seq<Entry>, rows: seq<Row>, place: nat, stamp: string)
    requires RowsArePrefix(log, rows) && place < |log| && log[place].event.Metered?
    requires |Meters(log[..place])| == |rows|
    ensures RowsArePrefix(log, rows + [RowOf(EventAt(log, place), stamp)])
  {
    MetersStep(log, place);
  }

  /** Everything before a requested place is covered. */
  lemma RequestCovered(c: Chain, rows: seq<Row>, p: Poll)
    requires ChainOk(c) && p.Fetching? && PollOk(c, rows, p)
    ensures Position(c, RequestOf(p)) <= Visible(c) <= |c.log| && Covered(c.log, rows, Position(c, RequestOf(p)))
  {
    VisibleBound(c);
    UptoMonotone(c.log, p.startLedger - 1, c.latest);
  }

  /** The page a request is answered with. */
  lemma PageIs(c: Chain, r: Request)
    requires Position(c, r) <= Visible(c) <= |c.log|
    ensures var from, pg := Position(c, r), GetEvents(c, r);
            && pg.cursor == Some(from + |pg.events|) && PageOk(c, pg, from)
            && |pg.events| == if from + PAGE_LIMIT <= Visible(c) then PAGE_LIMIT else Visible(c) - from
  {
  }

  lemma FetchOk(c: Chain, rows: seq<Row>, p: Poll)
    requires ChainOk(c) && p.Fetching? && PollOk(c, rows, p)
    ensures var from := Position(c, RequestOf(p)); var pg := GetEvents(c, RequestOf(p));
            && from <= Visible(c) && Covered(c.log, rows, from)
            && pg.cursor == Some(from + |pg.events|) && PageOk(c, pg, from)
            && |pg.events| == if from + PAGE_LIMIT <= Visible(c) then PAGE_LIMIT else Visible(c) - from
  {
    RequestCovered(c, rows, p);
    PageIs(c, RequestOf(p));
  }

  lemma FetchKeeps(c: Chain, rows: seq<Row>, p: Poll)
    requires ChainOk(c) && p.Fetching? && PollOk(c, rows, p)
    ensures PollOk(c, rows, Handling(p.startLedger, p.lastProcessed, GetEvents(c, RequestOf(p)), 0))
  {
    FetchOk(c, rows, p);
  }

  /** One step of one poll keeps the cache a prefix, its watermark safe, and the poll's own
      working state sound. */
  lemma NextKeeps(c: Chain, cache: Cache, p: Poll, stamp: string)
    requires ChainOk(c) && CacheOk(c, cache) && PollOk(c, cache.rows, p)
    ensures var page := if p.Fetching? then GetEvents(c, RequestOf(p)) else Page([], None, 0);
            var r := Next(p, cache, page, stamp);
            CacheOk(c, r.1) && PollOk(c, r.1.rows, r.0) && cache.rows <= r.1.rows
  {
    match p {
      case Begin =>
      case HaveStart(_) =>
      case Fetching(_, _, _) =>
        FetchKeeps(c, cache.rows, p);
      case Handling(s, lp, pg, i) =>
        HandlingKeeps(c, cache, p, stamp);
      case Rereading(lp, latest) =>
        SafeDownward(c, cache.rows, lp, latest);
      case Writing(_) =>
      case Finished =>
    }
  }

  lemma {:induction false} HandlingKeeps(c: Chain, cache: Cache, p: Poll, stamp: string)
    requires ChainOk(c) && CacheOk(c, cache) && p.Handling? && PollOk(c, cache.rows, p)
    ensures var r := Next(p, cache, Page([], None, 0), stamp);
            CacheOk(c, r.1) && PollOk(c, r.1.rows, r.0) && cache.rows <= r.1.rows
  {
    if p.next < |p.page.events| {
      HandlingEventKeeps(c, cache, p, stamp);
    } else {
      PageEndKeeps(c, cache.rows, p);
    }
  }

  /** Where an event of a page lies: in a closed ledger, no later than the page promised. */
  lemma PlaceOfPageEvent(c: Chain, pg: Page, from: nat, i: nat)
    requires ChainOk(c) && PageOk(c, pg, from) && i < |pg.events|
    ensures from + i < Visible(c) && from + i < |c.log|
    ensures pg.events[i] == EventAt(c.log, from + i) && pg.events[i].ledger <= pg.latestLedger
  {
    UptoMeaning(c.log, pg.latestLedger);
    UptoMonotone(c.log, pg.latestLedger, c.latest);
  }

  lemma HandleKeepsCache(c: Chain, cache: Cache, place: nat, stamp: string)
    requires ChainOk(c) && CacheOk(c, cache) && Covered(c.log, cache.rows, place) && place < Visible(c)
    ensures place < |c.log|
    ensures var rows' := HandleEvent(cache.rows, EventAt(c.log, place), stamp);
            && cache.rows <= rows' && CacheOk(c, cache.(rows := rows')) && Covered(c.log, rows', place + 1)
  {
    HandleKeepsPrefix(c, cache.rows, place, stamp);
  }

  lemma HandlingEventKeeps(c: Chain, cache: Cache, p: Poll, stamp: string)
    requires ChainOk(c) && CacheOk(c, cache) && p.Handling? && PollOk(c, cache.rows, p)
    requires p.next < |p.page.events|
    ensures var r := Next(p, cache, Page([], None, 0), stamp);
            CacheOk(c, r.1) && PollOk(c, r.1.rows, r.0) && cache.rows <= r.1.rows
  {
    var from := p.page.cursor.value - |p.page.events|;
    PlaceOfPageEvent(c, p.page, from, p.next);
    HandleKeepsCache(c, cache, from + p.next, stamp);
    var r := Next(p, cache, Page([], None, 0), stamp);
    HandledPollOk(c, cache.rows, r.1.rows, p, r.0);
  }

  lemma HandledPollOk(c: Chain, rows: seq<Row>, rows': seq<Row>, p: Poll, p': Poll)
    requires p.Handling? && PollOk(c, rows, p) && rows <= rows' && p.next < |p.page.events|
    requires p'.Handling? && p'.startLedger == p.startLedger && p'.page == p.page && p'.next == p.next + 1
    requires p'.lastProcessed <= p.page.latestLedger
    requires Covered(c.log, rows', p.page.cursor.value - |p.page.events| + p.next + 1)
    ensures PollOk(c, rows', p')
  {
  }

  /** A short page ends the poll with everything up to its latestLedger covered; a full one
      is followed from its cursor. */
  lemma PageEndKeeps(c: Chain, rows: seq<Row>, p: Poll)
    requires ChainOk(c) && p.Handling? && PollOk(c, rows, p) && p.next == |p.page.events|
    ensures PollOk(c, rows, Next(p, Cache(rows, None), Page([], None, 0), "").0)
  {
    UptoMonotone(c.log, p.page.latestLedger, c.latest);
    VisibleBound(c);
    UptoMeaning(c.log, p.page.latestLedger);
  }

  /** A growing chain takes nothing away from what a cache or a poll relies on. */
  lemma GrowthKeeps(c: Chain, c': Chain, rows: seq<Row>, p: Poll)
    requires Grows(c, c') && PollOk(c, rows, p)
    ensures PollOk(c', rows, p)
  {
    match p {
      case HaveStart(s) => GrowthKeepsSafe(c, c', rows, s - 1);
      case Fetching(s, lp, cursor) =>
        GrowthKeepsSafe(c, c', rows, s - 1);
        GrowthVisible(c, c');
        if cursor.Some? {
          GrowthKeepsCovered(c, c', rows, cursor.value);
        }
      case Handling(s, lp, pg, i) =>
        GrowthKeepsSafe(c, c', rows, s - 1);
        GrowthKeepsPage(c, c', pg, pg.cursor.value - |pg.events|);
        GrowthKeepsCovered(c, c', rows, pg.cursor.value - |pg.events| + i);
      case Rereading(lp, latest) => GrowthKeepsSafe(c, c', rows, latest);
      case Writing(mark) => GrowthKeepsSafe(c, c', rows, mark);
      case _ =>
    }
  }

  lemma GrowthKeepsCovered(c: Chain, c': Chain, rows: seq<Row>, place: nat)
    requires c.log <= c'.log && Covered(c.log, rows, place)
    ensures Covered(c'.log, rows, place)
  {
    assert c'.log[..place] == c.log[..place];
  }

  lemma GrowthKeepsPage(c: Chain, c': Chain, pg: Page, from: nat)
    requires Grows(c, c') && PageOk(c, pg, from)
    ensures PageOk(c', pg, from)
  {
    UptoStable(c, c', pg.latestLedger);
    UptoMeaning(c.log, pg.latestLedger);
    forall j | 0 <= j < |pg.events| ensures pg.events[j] == EventAt(c'.log, from + j) {
      assert pg.events[j] == EventAt(c.log, from + j);
    }
  }

  lemma GrowthKeepsSafe(c: Chain, c': Chain, rows: seq<Row>, ledger: nat)
    requires Grows(c, c') && Safe(c, rows, ledger)
    ensures Safe(c', rows, ledger)
  {
    UptoStable(c, c', ledger);
    GrowthKeepsCovered(c, c', rows, Upto(c.log, ledger));
  }

  lemma GrowthVisible(c: Chain, c': Chain)
    requires Grows(c, c')
    ensures Visible(c) <= Visible(c') && Visible(c) <= |c.log|
  {
    UptoMeaning(c.log, c.latest);
    UptoStable(c, c', c.latest);
    UptoMonotone(c'.log, c.latest, c'.latest);
  }

  lemma GrowthKeepsCache(c: Chain, c': Chain, cache: Cache)
    requires Grows(c, c') && CacheOk(c, cache)
    ensures CacheOk(c', cache)
  {
    GrowthKeepsSafe(c, c', cache.rows, LastLedger(cache));
    GrowthVisible(c, c');
    VisibleBound(c');
    assert c'.log[..|c.log|] == c.log;
    MetersPrefix(c'.log, |c.log|);
    assert c'.log[..Visible(c)] == c.log[..Visible(c)];
    MetersMonotone(c'.log, Visible(c), Visible(c'));
    forall k | 0 <= k < |cache.rows| ensures Records(cache.rows[k], c'.log, Meters(c'.log)[k]) {
      assert Records(cache.rows[k], c.log, Meters(c.log)[k]);
    }
  }

  /** Rows another poll inserts take nothing away from this poll either. */
  lemma MoreRowsKeep(c: Chain, rows: seq<Row>, rows': seq<Row>, p: Poll)
    requires rows <= rows' && PollOk(c, rows, p)
    ensures PollOk(c, rows', p)
  {
  }
}
