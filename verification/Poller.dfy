/** EventIndexer.poll() as the loop it is, on a cache it updates, and the proof that an
    uninterrupted call is a run of the step machine and fetches no more than it must. */
module Poller {
  import opened Prelude
  import opened Store
  import opened Indexer

  type Moment = (Poll, Cache)

  /** The k-th await of a poll that has the chain and the cache to itself. */
  function Step(c: Chain, clock: nat -> string, m: Moment, k: nat): Moment {
    Next(m.0, m.1, if m.0.Fetching? then GetEvents(c, RequestOf(m.0)) else Page([], None, 0), clock(k))
  }

  predicate StepAt(c: Chain, clock: nat -> string, trace: seq<Moment>, k: nat) {
    k + 1 < |trace| && trace[k + 1] == Step(c, clock, trace[k], k)
  }

  /** A run of the step machine, from a fresh poll, moment by moment. */
  ghost predicate Run(c: Chain, clock: nat -> string, before: Cache, trace: seq<Moment>) {
    && trace != [] && trace[0] == (Begin, before)
    && forall k: nat :: k + 1 < |trace| ==> StepAt(c, clock, trace, k)
  }

  ghost function Onward(c: Chain, clock: nat -> string, trace: seq<Moment>): (t: seq<Moment>)
    requires trace != []
    ensures |t| == |trace| + 1 && Last(t) == Step(c, clock, Last(trace), |trace| - 1)
  {
    trace + [Step(c, clock, Last(trace), |trace| - 1)]
  }

  lemma RunOnward(c: Chain, clock: nat -> string, before: Cache, trace: seq<Moment>)
    requires Run(c, clock, before, trace)
    ensures Run(c, clock, before, Onward(c, clock, trace))
  {
    var t := Onward(c, clock, trace);
    forall k: nat | k + 1 < |t| ensures StepAt(c, clock, t, k) {
      if k + 1 < |trace| {
        assert StepAt(c, clock, trace, k);
      }
    }
  }

  /** The first two awaits: both read the watermark. */
  ghost function Opening(c: Chain, clock: nat -> string, before: Cache): (t: seq<Moment>)
    ensures |t| == 3 && Run(c, clock, before, t)
    ensures Last(t) == (Fetching(LastLedger(before) + 1, LastLedger(before), None), before)
  {
    RunOnward(c, clock, before, [(Begin, before)]);
    var one := Onward(c, clock, [(Begin, before)]);
    RunOnward(c, clock, before, one);
    Onward(c, clock, one)
  }

  /** How many contract events are closed but lie above the watermark. */
  function Backlog(c: Chain, cache: Cache): int {
    Visible(c) - Upto(c.log, LastLedger(cache))
  }

  /** Where a completed poll leaves the watermark. */
  function MarkAfter(c: Chain, cache: Cache): nat {
    if 0 < Backlog(c, cache) && 0 < Visible(c) <= |c.log| then c.log[Visible(c) - 1].ledger else c.latest
  }

  ghost predicate Working(c: Chain, cache: Cache, p: Poll) {
    ChainOk(c) && CacheOk(c, cache) && PollOk(c, cache.rows, p)
  }

  /** Whatever the clock reads, every await of the lone poll leaves a sound state. */
  lemma {:induction false} RunKeeps(c: Chain, clock: nat -> string, before: Cache, trace: seq<Moment>, k: nat)
    requires ChainOk(c) && CacheOk(c, before) && Run(c, clock, before, trace) && k < |trace|
    ensures Working(c, trace[k].1, trace[k].0)
    ensures before.rows <= trace[k].1.rows
  {
    if k > 0 {
      RunKeeps(c, clock, before, trace, k - 1);
      assert StepAt(c, clock, trace, k - 1);
      NextKeeps(c, trace[k - 1].1, trace[k - 1].0, clock(k - 1));
    }
  }

  lemma RunSound(c: Chain, clock: nat -> string, before: Cache, trace: seq<Moment>)
    requires ChainOk(c) && CacheOk(c, before) && Run(c, clock, before, trace)
    ensures CacheOk(c, Last(trace).1) && before.rows <= Last(trace).1.rows
  {
    RunKeeps(c, clock, before, trace, |trace| - 1);
  }

  /** lastProcessedLedger once everything before this place has been handled. */
  predicate ProcessedTo(c: Chain, first: nat, mark: nat, lastProcessed: nat, place: nat) {
    && first <= place <= |c.log|
    && lastProcessed == if first < place then c.log[place - 1].ledger else mark
  }

  lemma ProcessedStep(c: Chain, first: nat, mark: nat, lastProcessed: nat, place: nat)
    requires ChainOk(c) && first == Upto(c.log, mark) && place < |c.log|
    requires ProcessedTo(c, first, mark, lastProcessed, place)
    ensures var l := c.log[place].ledger;
            ProcessedTo(c, first, mark, if l > lastProcessed then l else lastProcessed, place + 1)
  {
    UptoMeaning(c.log, mark);
  }

  /** The place just behind a page. */
  function PlaceAfter(page: Page): nat {
    if page.cursor.Some? then page.cursor.value else 0
  }

  /** The event being handled is the next one of the chain. */
  lemma HandlingNext(c: Chain, before: Cache, rows: seq<Row>, p: Poll, first: nat)
    requires ChainOk(c) && PollOk(c, rows, p)
    requires p.Handling? && p.next < |p.page.events|
    requires first == Upto(c.log, LastLedger(before))
    requires ProcessedTo(c, first, LastLedger(before), p.lastProcessed,
                         p.page.cursor.value - |p.page.events| + p.next)
    ensures var l := p.page.events[p.next].ledger;
            ProcessedTo(c, first, LastLedger(before), if l > p.lastProcessed then l else p.lastProcessed,
                        p.page.cursor.value - |p.page.events| + p.next + 1)
  {
    var from := p.page.cursor.value - |p.page.events|;
    PlaceOfPageEvent(c, p.page, from, p.next);
    ProcessedStep(c, first, LastLedger(before), p.lastProcessed, from + p.next);
  }

  /** What the RPC answers to the request being made. */
  lemma FetchingNext(c: Chain, clock: nat -> string, before: Cache, trace: seq<Moment>)
    requires ChainOk(c) && CacheOk(c, before) && Run(c, clock, before, trace) && Last(trace).0.Fetching?
    ensures var r := RequestOf(Last(trace).0); var from, pg := Position(c, r), GetEvents(c, r);
            && from <= Visible(c)
            && pg.cursor == Some(from + |pg.events|) && pg.latestLedger == c.latest
            && |pg.events| == if from + PAGE_LIMIT <= Visible(c) then PAGE_LIMIT else Visible(c) - from
  {
    RunKeeps(c, clock, before, trace, |trace| - 1);
    FetchOk(c, Last(trace).1.rows, Last(trace).0);
  }

  lemma EventStepIs(c: Chain, clock: nat -> string, trace: seq<Moment>, p: Poll, cache: Cache)
    requires trace != [] && Last(trace) == (p, cache)
    requires p.Handling? && p.next < |p.page.events|
    ensures var e := p.page.events[p.next];
            Last(Onward(c, clock, trace))
            == (Handling(p.startLedger, if e.ledger > p.lastProcessed then e.ledger else p.lastProcessed,
                         p.page, p.next + 1),
                cache.(rows := HandleEvent(cache.rows, e, clock(|trace| - 1))))
  {
  }

  /** The await of one event: where the run, the cache and lastProcessed stand after it. */
  lemma EventNext(c: Chain, clock: nat -> string, before: Cache, trace: seq<Moment>, first: nat, p: Poll, cache: Cache)
    requires ChainOk(c) && CacheOk(c, before)
    requires Run(c, clock, before, trace) && Last(trace) == (p, cache)
    requires p.Handling? && p.next < |p.page.events| <= PlaceAfter(p.page) && first == Upto(c.log, LastLedger(before))
    requires ProcessedTo(c, first, LastLedger(before), p.lastProcessed,
                         PlaceAfter(p.page) - |p.page.events| + p.next)
    ensures var e := p.page.events[p.next];
            var lp := if e.ledger > p.lastProcessed then e.ledger else p.lastProcessed;
            && Run(c, clock, before, Onward(c, clock, trace))
            && Last(Onward(c, clock, trace))
               == (Handling(p.startLedger, lp, p.page, p.next + 1),
                   cache.(rows := HandleEvent(cache.rows, e, clock(|trace| - 1))))
            && ProcessedTo(c, first, LastLedger(before), lp, PlaceAfter(p.page) - |p.page.events| + p.next + 1)
  {
    RunKeeps(c, clock, before, trace, |trace| - 1);
    HandlingNext(c, before, cache.rows, p, first);
    RunOnward(c, clock, before, trace);
    EventStepIs(c, clock, trace, p, cache);
  }

  /** After the last event of the last page, everything closed is in the cache. */
  lemma PageEndCaughtUp(c: Chain, clock: nat -> string, before: Cache, trace: seq<Moment>)
    requires ChainOk(c) && CacheOk(c, before) && Run(c, clock, before, trace)
    requires var p := Last(trace).0;
             p.Handling? && p.next == |p.page.events| && p.page.cursor == Some(Visible(c))
    ensures |Last(trace).1.rows| == |Meters(c.log[..Bounded(c.log, Visible(c))])|
  {
    RunKeeps(c, clock, before, trace, |trace| - 1);
    VisibleBound(c);
  }

  lemma BacklogBounds(c: Chain, before: Cache)
    requires ChainOk(c) && CacheOk(c, before)
    ensures Upto(c.log, LastLedger(before)) <= Visible(c) <= |c.log|
  {
    VisibleBound(c);
    UptoMonotone(c.log, LastLedger(before), c.latest);
  }

  /** The mark a completed poll settles on never lies below the one it started from. */
  lemma MarkIs(c: Chain, before: Cache, lastProcessed: nat)
    requires ChainOk(c) && CacheOk(c, before)
    requires ProcessedTo(c, Upto(c.log, LastLedger(before)), LastLedger(before), lastProcessed, Visible(c))
    ensures var last := LastLedger(before);
            var mark := if lastProcessed > last then lastProcessed else c.latest;
            MarkAfter(c, before) == (if mark > last then mark else last)
    ensures LastLedger(before) <= MarkAfter(c, before)
  {
    UptoMeaning(c.log, LastLedger(before));
  }

  /** The RPC answers every call a poll with this backlog has to make. */
  predicate Answered(down: set<nat>, backlog: nat) {
    forall n: nat :: n <= backlog / PAGE_LIMIT ==> n !in down
  }

  lemma CallsMade(down: set<nat>, backlog: nat, calls: nat)
    requires forall n: nat :: n < calls ==> n !in down
    requires PAGE_LIMIT * calls <= backlog
    ensures calls <= backlog / PAGE_LIMIT
    ensures calls in down ==> !Answered(down, backlog)
    ensures calls !in down && backlog < PAGE_LIMIT * (calls + 1) ==>
              calls == backlog / PAGE_LIMIT && Answered(down, backlog)
  {
  }

  /** The loop is about to make its next request: after so many full pages. */
  ghost predicate Requesting(c: Chain, before: Cache, trace: seq<Moment>, first: nat, startLedger: nat,
                             lastProcessed: nat, cursor: Option<nat>, now: Cache, calls: nat)
  {
    var p := Fetching(startLedger, lastProcessed, cursor);
    && trace != [] && Last(trace) == (p, now) && now.lastLedger == before.lastLedger
    && Position(c, RequestOf(p)) == first + PAGE_LIMIT * calls <= Visible(c)
    && ProcessedTo(c, first, LastLedger(before), lastProcessed, first + PAGE_LIMIT * calls)
  }

  /** A full page with a cursor leads to the next request. */
  lemma PageTurns(c: Chain, clock: nat -> string, before: Cache, trace: seq<Moment>, first: nat,
                  startLedger: nat, lastProcessed: nat, page: Page, now: Cache, calls: nat)
    requires Run(c, clock, before, trace)
    requires Last(trace) == (Handling(startLedger, lastProcessed, page, |page.events|), now)
    requires |page.events| == PAGE_LIMIT && page.cursor == Some(first + PAGE_LIMIT * (calls + 1))
    requires first + PAGE_LIMIT * (calls + 1) <= Visible(c) && now.lastLedger == before.lastLedger
    requires ProcessedTo(c, first, LastLedger(before), lastProcessed, first + PAGE_LIMIT * (calls + 1))
    ensures Run(c, clock, before, Onward(c, clock, trace))
    ensures Requesting(c, before, Onward(c, clock, trace), first, startLedger, lastProcessed, page.cursor, now, calls + 1)
  {
    RunOnward(c, clock, before, trace);
  }

  class EventIndexer {
    const storage: CacheStore

    constructor (storage: CacheStore)
      ensures this.storage == storage
    {
      this.storage := storage;
    }

    /** Only billing events reach the cache. */
    method Handle(event: RpcEvent, stamp: string)
      modifies storage`rows
      ensures storage.View() == old(storage.View()).(rows := HandleEvent(old(storage.rows), event, stamp))
    {
      if event.event.Metered? {
        var _ := storage.IngestRow(RowOf(event, stamp));
      }
    }

    /** The inner loop: one event after the other, each awaited; k awaits came before. */
    method HandlePage(c: Chain, clock: nat -> string, page: Page, startLedger: nat, mark: nat, k: nat,
                      ghost before: Cache, ghost trace: seq<Moment>, ghost first: nat)
      returns (lastProcessed: nat, ghost trace': seq<Moment>)
      requires ChainOk(c) && CacheOk(c, before)
      requires Run(c, clock, before, trace) && k == |trace| - 1
      requires Last(trace) == (Handling(startLedger, mark, page, 0), storage.View())
      requires |page.events| <= PlaceAfter(page)
      requires first == Upto(c.log, LastLedger(before))
      requires ProcessedTo(c, first, LastLedger(before), mark, PlaceAfter(page) - |page.events|)
      modifies storage`rows
      ensures Run(c, clock, before, trace') && |trace'| == |trace| + |page.events|
      ensures Last(trace') == (Handling(startLedger, lastProcessed, page, |page.events|), storage.View())
      ensures ProcessedTo(c, first, LastLedger(before), lastProcessed, PlaceAfter(page))
    {
      ghost var from := PlaceAfter(page) - |page.events|;
      lastProcessed, trace' := mark, trace;
      for i := 0 to |page.events|
        invariant Run(c, clock, before, trace') && |trace'| == |trace| + i
        invariant Last(trace') == (Handling(startLedger, lastProcessed, page, i), storage.View())
        invariant ProcessedTo(c, first, LastLedger(before), lastProcessed, from + i)
      {
        EventNext(c, clock, before, trace', first, Handling(startLedger, lastProcessed, page, i), storage.View());
        trace' := Onward(c, clock, trace');
        var event := page.events[i];
        Handle(event, clock(k + i));
        if event.ledger > lastProcessed {
          lastProcessed := event.ledger;
        }
      }
    }

    /** One turn of the outer loop: fetch a page and handle all of it. */
    method FetchPage(c: Chain, clock: nat -> string, startLedger: nat, mark: nat, cursor: Option<nat>, k: nat,
                     ghost before: Cache, ghost trace: seq<Moment>, ghost first: nat)
      returns (page: Page, lastProcessed: nat, ghost trace': seq<Moment>)
      requires ChainOk(c) && CacheOk(c, before)
      requires Run(c, clock, before, trace) && k == |trace| - 1
      requires Last(trace) == (Fetching(startLedger, mark, cursor), storage.View())
      requires first == Upto(c.log, LastLedger(before))
      requires ProcessedTo(c, first, LastLedger(before), mark,
                           Position(c, RequestOf(Fetching(startLedger, mark, cursor))))
      modifies storage`rows
      ensures Run(c, clock, before, trace') && |trace'| == |trace| + 1 + |page.events|
      ensures Last(trace') == (Handling(startLedger, lastProcessed, page, |page.events|), storage.View())
      ensures var from := Position(c, RequestOf(Fetching(startLedger, mark, cursor)));
              && page.cursor == Some(from + |page.events|) && page.latestLedger == c.latest
              && |page.events| == (if from + PAGE_LIMIT <= Visible(c) then PAGE_LIMIT else Visible(c) - from)
              && ProcessedTo(c, first, LastLedger(before), lastProcessed, from + |page.events|)
    {
      FetchingNext(c, clock, before, trace);
      page := GetEvents(c, if cursor.Some? then FromCursor(cursor.value) else FromLedger(startLedger));
      RunOnward(c, clock, before, trace);
      lastProcessed, trace' :=
        HandlePage(c, clock, page, startLedger, mark, k + 1, before, Onward(c, clock, trace), first);
    }

    /** The end of a poll: re-read the watermark and move it, but only upwards. */
    method AdvanceWatermark(lastProcessed: nat, latestLedger: nat) returns (wrote: bool)
      modifies storage`meta
      ensures var last := LastLedger(old(storage.View()));
              var mark := if lastProcessed > last then lastProcessed else latestLedger;
              && wrote == (mark > last)
              && storage.View() == if wrote then old(storage.View()).(lastLedger := Some(mark))
                                   else old(storage.View())
    {
      var lastLedger := storage.GetLastLedger();
      var newWatermark := if lastProcessed > lastLedger then lastProcessed else latestLedger;
      wrote := newWatermark > lastLedger;
      if wrote {
        storage.SetLastLedger(newWatermark);
      }
    }

    /** The last awaits of a poll whose last page has been handled. */
    method FinishPoll(c: Chain, clock: nat -> string, lastProcessed: nat, page: Page,
                      ghost before: Cache, ghost trace: seq<Moment>)
      returns (ghost trace': seq<Moment>)
      requires ChainOk(c) && CacheOk(c, before)
      requires Run(c, clock, before, trace) && storage.View().lastLedger == before.lastLedger
      requires Last(trace).1 == storage.View()
      requires Last(trace).0.Handling? && Last(trace).0 == Handling(Last(trace).0.startLedger, lastProcessed, page, |page.events|)
      requires |page.events| < PAGE_LIMIT && page.cursor == Some(Visible(c)) && page.latestLedger == c.latest
      requires ProcessedTo(c, Upto(c.log, LastLedger(before)), LastLedger(before), lastProcessed, Visible(c))
      modifies storage`meta
      ensures Run(c, clock, before, trace') && Last(trace') == (Finished, storage.View())
      ensures CacheOk(c, storage.View()) && before.rows <= storage.rows
      ensures |storage.rows| == |Meters(c.log[..Bounded(c.log, Visible(c))])|
      ensures LastLedger(storage.View()) == MarkAfter(c, before)
    {
      PageEndCaughtUp(c, clock, before, trace);
      RunOnward(c, clock, before, trace);
      trace' := Onward(c, clock, trace);
      RunOnward(c, clock, before, trace');
      trace' := Onward(c, clock, trace');
      var wrote := AdvanceWatermark(lastProcessed, page.latestLedger);
      if wrote {
        RunOnward(c, clock, before, trace');
        trace' := Onward(c, clock, trace');
      }
      MarkIs(c, before, lastProcessed);
      RunSound(c, clock, before, trace');
    }

    /** The outer loop: page after page, until one comes short or a call fails. */
    method FetchAll(c: Chain, down: set<nat>, clock: nat -> string, startLedger: nat, mark: nat,
                    ghost before: Cache, ghost trace: seq<Moment>)
      returns (calls: nat, completed: bool, ghost trace': seq<Moment>)
      requires ChainOk(c) && CacheOk(c, before) && storage.View() == before
      requires startLedger == LastLedger(before) + 1 && mark == LastLedger(before)
      requires Run(c, clock, before, trace) && |trace| == 3 && Last(trace) == (Fetching(startLedger, mark, None), before)
      modifies storage
      ensures Run(c, clock, before, trace') && Last(trace').1 == storage.View()
      ensures 0 <= Backlog(c, before) && (completed <==> Answered(down, Backlog(c, before)))
      ensures completed ==>
                && Last(trace').0 == Finished
                && calls == Backlog(c, before) / PAGE_LIMIT + 1
                && |storage.rows| == |Meters(c.log[..Bounded(c.log, Visible(c))])|
                && LastLedger(storage.View()) == MarkAfter(c, before)
      ensures !completed ==> storage.View().lastLedger == before.lastLedger
    {
      BacklogBounds(c, before);
      ghost var first := Upto(c.log, LastLedger(before));
      var cursor: Option<nat>, lastProcessed, k := None, mark, 2;
      calls, completed, trace' := 0, false, trace;
      while true
        invariant Run(c, clock, before, trace') && k == |trace'| - 1
        invariant Requesting(c, before, trace', first, startLedger, lastProcessed, cursor, storage.View(), calls)
        invariant !completed
        invariant forall n: nat :: n < calls ==> n !in down
        decreases Visible(c) - PAGE_LIMIT * calls
      {
        FetchingNext(c, clock, before, trace');
        CallsMade(down, Backlog(c, before), calls);
        if calls in down {
          return;
        }
        var page;
        page, lastProcessed, trace' :=
          FetchPage(c, clock, startLedger, lastProcessed, cursor, k, before, trace', first);
        if |page.events| < PAGE_LIMIT || page.cursor.None? {
          trace' := FinishPoll(c, clock, lastProcessed, page, before, trace');
          calls, completed := calls + 1, true;
          return;
        }
        PageTurns(c, clock, before, trace', first, startLedger, lastProcessed, page, storage.View(), calls);
        calls, trace' := calls + 1, Onward(c, clock, trace');
        cursor, k := page.cursor, k + |page.events| + 2;
      }
    }

    /** One poll. down lists the getEvents calls the RPC fails to answer; the first such
        failure ends the poll, and what was handled before it stays. Undisturbed, the poll
        makes floor(backlog / 200) + 1 calls and leaves nothing closed unfetched. */
    method Poll(c: Chain, down: set<nat>, clock: nat -> string)
      returns (calls: nat, completed: bool, ghost trace: seq<Moment>)
      requires ChainOk(c) && CacheOk(c, storage.View())
      modifies storage
      ensures Run(c, clock, old(storage.View()), trace) && Last(trace).1 == storage.View()
      ensures completed ==> Last(trace).0 == Finished
      ensures 0 <= Backlog(c, old(storage.View()))
      ensures completed <==> Answered(down, Backlog(c, old(storage.View())))
      ensures completed ==>
                && calls == Backlog(c, old(storage.View())) / 200 + 1
                && |storage.rows| == |Meters(c.log[..Bounded(c.log, Visible(c))])|
                && LastLedger(storage.View()) == MarkAfter(c, old(storage.View()))
      ensures !completed ==> storage.View().lastLedger == old(storage.View().lastLedger)
      ensures CacheOk(c, storage.View()) && old(storage.rows) <= storage.rows
    {
      ghost var before := storage.View();
      var startLedger: nat := storage.GetLastLedger();
      startLedger := startLedger + 1;
      var lastProcessed := storage.GetLastLedger();
      calls, completed, trace :=
        FetchAll(c, down, clock, startLedger, lastProcessed, before, Opening(c, clock, before));
      RunSound(c, clock, before, trace);
    }
  }
}
