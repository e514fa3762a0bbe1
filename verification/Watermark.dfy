/** The persisted watermark: when it is monotone, when it may step back, and why the RPC's
    cursor is essential to its safety. */
module Watermark {
  import opened Prelude
  import opened Billing
  import opened Store
  import opened Indexer
  import opened World
  import opened Journal

  function Mark(w: World): nat {
    LastLedger(w.cache)
  }

  // ---- Exactly when the watermark falls ----

  predicate IsWrite(w: World, a: Action) {
    a.Await? && a.id in w.polls && w.polls[a.id].Writing?
  }

  predicate WritesOf(w: World, a: Action, id: nat, m: nat) {
    a.Await? && a.id == id && id in w.polls && w.polls[id] == Writing(m)
  }

  /** The re-read of this poll, after which it is about to write m: so m is above what it read. */
  ghost predicate Rereads(w: World, a: Action, id: nat, m: nat) {
    && a.Await? && a.id == id && id in w.polls && w.polls[id].Rereading?
    && Mark(w) < m && Step(w, a).polls == w.polls[id := Writing(m)]
  }

  lemma MarkAfterStep(w: World, a: Action)
    ensures Mark(Step(w, a)) == if IsWrite(w, a) then w.polls[a.id].newWatermark else Mark(w)
  {
  }

  ghost predicate NoWriteSince(w: World, actions: seq<Action>, k: nat) {
    forall i: nat :: k <= i < |actions| ==> !IsWrite(Run(w, actions[..i]), actions[i])
  }

  /** Poll id re-read at j and has not moved since; at k, later, another poll made the last
      write so far, of a mark above the m this poll is about to write. */
  ghost predicate Overtaken(w: World, actions: seq<Action>, id: nat, m: nat, j: nat, k: nat) {
    && j < k < |actions|
    && Rereads(Run(w, actions[..j]), actions[j], id, m)
    && (forall i: nat :: j < i <= |actions| ==> WritesNext(Run(w, actions[..i]), id, m))
    && IsWrite(Run(w, actions[..k]), actions[k]) && actions[k].id != id
    && m < Run(w, actions[..k]).polls[actions[k].id].newWatermark
    && NoWriteSince(w, actions, k + 1)
  }

  predicate WritesNext(w: World, id: nat, m: nat) {
    id in w.polls && w.polls[id] == Writing(m)
  }

  lemma {:induction false} MarkStays(w: World, actions: seq<Action>, k: nat)
    requires k <= |actions| && NoWriteSince(w, actions, k)
    ensures Mark(Run(w, actions)) == Mark(Run(w, actions[..k]))
  {
    if k == |actions| {
      assert actions[..k] == actions;
    } else {
      var front := Init(actions);
      assert forall i: nat :: i <= |front| ==> front[..i] == actions[..i];
      forall i: nat | k <= i < |front| ensures !IsWrite(Run(w, front[..i]), front[i]) {
        assert !IsWrite(Run(w, actions[..i]), actions[i]);
      }
      MarkStays(w, front, k);
      assert !IsWrite(Run(w, actions[..|front|]), actions[|front|]);
      assert actions[..|front|] == front;
      MarkAfterStep(Run(w, front), Last(actions));
    }
  }

  /** The write that left the present mark, when it is not the mark of moment j any more. */
  lemma {:induction false} LastWrite(w: World, actions: seq<Action>, j: nat) returns (k: nat)
    requires j <= |actions| && Mark(Run(w, actions[..j])) != Mark(Run(w, actions))
    ensures j <= k < |actions| && IsWrite(Run(w, actions[..k]), actions[k]) && NoWriteSince(w, actions, k + 1)
    ensures Run(w, actions[..k]).polls[actions[k].id].newWatermark == Mark(Run(w, actions))
  {
    assert actions[..|actions|] == actions;
    var front := Init(actions);
    assert forall i: nat :: i <= |front| ==> front[..i] == actions[..i];
    assert actions[..|front|] == front;
    MarkAfterStep(Run(w, front), Last(actions));
    if IsWrite(Run(w, front), Last(actions)) {
      k := |front|;
    } else {
      k := LastWrite(w, front, j);
      forall i: nat | k + 1 <= i < |actions| ensures !IsWrite(Run(w, actions[..i]), actions[i]) {
        if i < |front| {
          assert !IsWrite(Run(w, front[..i]), front[i]);
        }
      }
    }
  }

  lemma NewWriter(w: World, a: Action, id: nat, m: nat)
    requires WritesNext(Step(w, a), id, m) && !WritesNext(w, id, m)
    ensures Rereads(w, a, id, m)
  {
  }

  /** A poll about to write re-read at some moment and has waited ever since. */
  lemma {:induction false} RereadBefore(w: World, actions: seq<Action>, id: nat, m: nat) returns (j: nat)
    requires Genesis(w) && WritesNext(Run(w, actions), id, m)
    ensures j < |actions| && Rereads(Run(w, actions[..j]), actions[j], id, m)
    ensures forall i: nat :: j < i <= |actions| ==> WritesNext(Run(w, actions[..i]), id, m)
  {
    var front := Init(actions);
    assert actions[..|actions|] == actions;
    assert forall i: nat :: i <= |front| ==> front[..i] == actions[..i];
    assert actions[..|front|] == front && front[..|front|] == front;
    if WritesNext(Run(w, front), id, m) {
      j := RereadBefore(w, front, id, m);
      forall i: nat | j < i <= |actions| ensures WritesNext(Run(w, actions[..i]), id, m) {
        if i <= |front| {
          assert WritesNext(Run(w, front[..i]), id, m);
        }
      }
    } else {
      NewWriter(Run(w, front), Last(actions), id, m);
      j := |front|;
    }
  }

  lemma OvertakenBy(w: World, actions: seq<Action>, id: nat, m: nat) returns (j: nat, k: nat)
    requires Genesis(w) && WritesNext(Run(w, actions), id, m) && m < Mark(Run(w, actions))
    ensures Overtaken(w, actions, id, m, j, k)
  {
    j := RereadBefore(w, actions, id, m);
    k := LastWrite(w, actions, j);
    assert k != j;
    assert WritesNext(Run(w, actions[..k]), id, m);
  }

  lemma OvertakenMark(w: World, actions: seq<Action>, id: nat, m: nat, j: nat, k: nat)
    requires Overtaken(w, actions, id, m, j, k)
    ensures WritesNext(Run(w, actions), id, m) && m < Mark(Run(w, actions))
  {
    assert actions[..|actions|] == actions;
    MarkOfLastWrite(w, actions, k);
  }

  lemma MarkOfLastWrite(w: World, actions: seq<Action>, k: nat)
    requires k < |actions| && IsWrite(Run(w, actions[..k]), actions[k]) && NoWriteSince(w, actions, k + 1)
    ensures Mark(Run(w, actions)) == Run(w, actions[..k]).polls[actions[k].id].newWatermark
  {
    MarkStays(w, actions, k + 1);
    MarkWritten(w, actions, k);
  }

  lemma MarkWritten(w: World, actions: seq<Action>, k: nat)
    requires k < |actions| && IsWrite(Run(w, actions[..k]), actions[k])
    ensures Mark(Run(w, actions[..k + 1])) == Run(w, actions[..k]).polls[actions[k].id].newWatermark
  {
    assert actions[..k + 1] == actions[..k] + [actions[k]];
    RunSnoc(w, actions[..k], actions[k]);
    MarkAfterStep(Run(w, actions[..k]), actions[k]);
  }

  /** The watermark falls exactly when the step is a write that was overtaken: since this poll's
      re-read, another poll's write has left a mark above the one this poll now writes. */
  lemma {:induction false} FallsExactly(w: World, actions: seq<Action>, a: Action)
    requires Genesis(w)
    ensures Mark(Step(Run(w, actions), a)) < Mark(Run(w, actions)) <==>
              exists id: nat, m: nat, j: nat, k: nat :: WritesOf(Run(w, actions), a, id, m) && Overtaken(w, actions, id, m, j, k)
  {
    var now := Run(w, actions);
    MarkAfterStep(now, a);
    if Mark(Step(now, a)) < Mark(now) {
      var m := now.polls[a.id].newWatermark;
      var j, k := OvertakenBy(w, actions, a.id, m);
      assert WritesOf(now, a, a.id, m) && Overtaken(w, actions, a.id, m, j, k);
    }
    forall id: nat, m: nat, j: nat, k: nat | WritesOf(now, a, id, m) && Overtaken(w, actions, id, m, j, k)
      ensures Mark(Step(now, a)) < Mark(now)
    {
      OvertakenMark(w, actions, id, m, j, k);
    }
  }

  // ---- One poll at a time ----

  predicate AtMostOnePoll(w: World) {
    forall i, j :: i in w.polls && j in w.polls ==> i == j
  }

  predicate WritesUpwards(w: World) {
    forall i :: i in w.polls && w.polls[i].Writing? ==> Mark(w) < w.polls[i].newWatermark
  }

  lemma AloneStep(w: World, a: Action)
    requires WritesUpwards(w) && AtMostOnePoll(w)
    ensures WritesUpwards(Step(w, a))
  {
  }

  /** A poll that never shares the moment with another is never overtaken. */
  lemma AloneNotOvertaken(w: World, actions: seq<Action>, id: nat, m: nat, j: nat, k: nat)
    requires Overtaken(w, actions, id, m, j, k)
    ensures !AtMostOnePoll(Run(w, actions[..k]))
  {
    assert WritesNext(Run(w, actions[..k]), id, m);
  }

  ghost predicate NeverOverlapping(w: World, actions: seq<Action>) {
    forall j: nat :: j <= |actions| ==> AtMostOnePoll(Run(w, actions[..j]))
  }

  /** As long as no poll starts before the previous one has ended, the watermark never falls. */
  lemma {:induction false} MonotoneWithoutOverlap(w: World, actions: seq<Action>, k: nat)
    requires Genesis(w) && NeverOverlapping(w, actions) && k <= |actions|
    ensures WritesUpwards(Run(w, actions))
    ensures Mark(Run(w, actions[..k])) <= Mark(Run(w, actions))
    decreases |actions|
  {
    if actions == [] {
      assert actions[..k] == actions;
    } else {
      var front := Init(actions);
      forall j: nat | j <= |front| ensures AtMostOnePoll(Run(w, front[..j])) {
        assert front[..j] == actions[..j];
      }
      assert front[..|front|] == front;
      MonotoneWithoutOverlap(w, front, if k < |actions| then k else |front|);
      AloneStep(Run(w, front), Last(actions));
      FallsExactly(w, front, Last(actions));
      forall id: nat, m: nat, j: nat, i: nat | Overtaken(w, front, id, m, j, i) ensures false {
        AloneNotOvertaken(w, front, id, m, j, i);
      }
      if k < |actions| {
        assert front[..k] == actions[..k];
      } else {
        assert actions[..k] == actions;
      }
    }
  }

  // ---- Two polls at once ----

  /** A poll and its first awaits. */
  function PollFor(id: nat, stamp: string, awaits: nat): seq<Action> {
    [StartPoll(id)] + seq(awaits, _ => Await(id, stamp))
  }

  /** The next moment of a poll that has this world to itself. */
  function PollNext(w: World, p: Poll, cache: Cache, stamp: string): (Poll, Cache) {
    Next(p, cache, if p.Fetching? then GetEvents(ChainOf(w), RequestOf(p)) else Page([], None, 0), stamp)
  }

  predicate Follows(w: World, stamp: string, ps: seq<(Poll, Cache)>, i: int) {
    0 < i < |ps| && PollNext(w, ps[i - 1].0, ps[i - 1].1, stamp) == ps[i] && ps[i].0 != Finished
  }

  lemma OneAwait(w: World, id: nat, stamp: string, p: Poll, c: Cache, p': Poll, c': Cache)
    requires PollNext(w, p, c, stamp) == (p', c') && p' != Finished
    ensures Step(w.(cache := c, polls := w.polls[id := p]), Await(id, stamp))
            == w.(cache := c', polls := w.polls[id := p'])
  {
    var before := w.(cache := c, polls := w.polls[id := p]);
    assert ChainOf(before) == ChainOf(w);
    assert before.polls[id := p'] == w.polls[id := p'];
  }

  /** A poll runs through these moments while nothing else happens. */
  lemma {:induction false} PollReaches(w: World, id: nat, stamp: string, ps: seq<(Poll, Cache)>, k: nat)
    requires id !in w.polls && k < |ps| && ps[0] == (Begin, w.cache)
    requires forall i :: 0 < i < |ps| ==> Follows(w, stamp, ps, i)
    ensures Run(w, PollFor(id, stamp, k)) == w.(cache := ps[k].1, polls := w.polls[id := ps[k].0])
  {
    if k == 0 {
      assert PollFor(id, stamp, 0) == [] + [StartPoll(id)];
      RunSnoc(w, [], StartPoll(id));
    } else {
      assert PollFor(id, stamp, k) == PollFor(id, stamp, k - 1) + [Await(id, stamp)];
      RunSnoc(w, PollFor(id, stamp, k - 1), Await(id, stamp));
      PollReaches(w, id, stamp, ps, k - 1);
      assert Follows(w, stamp, ps, k);
      OneAwait(w, id, stamp, ps[k - 1].0, ps[k - 1].1, ps[k].0, ps[k].1);
    }
  }

  /** Five awaits of a poll on a chain without events: it is about to write the latest ledger. */
  lemma AfterQuietPoll(w: World, id: nat)
    requires w.contract.log == [] && id !in w.polls && Mark(w) < w.latest
    ensures Run(w, PollFor(id, "", 5)) == w.(polls := w.polls[id := Writing(w.latest)])
  {
    var m, page, c := Mark(w), Page([], Some(0), w.latest), w.cache;
    assert GetEvents(ChainOf(w), FromLedger(m + 1)) == page;
    var ps := [(Begin, c), (HaveStart(m + 1), c), (Fetching(m + 1, m, None), c), (Handling(m + 1, m, page, 0), c),
               (Rereading(m, w.latest), c), (Writing(w.latest), c)];
    PollReaches(w, id, "", ps, 5);
  }

  /** A ledger closes, and then a poll gets as far as its write. */
  function CloseAndPoll(now: u64, id: nat): seq<Action> {
    [CloseLedger(now)] + PollFor(id, "", 5)
  }

  lemma AfterClose(w: World)
    ensures Run(w, [CloseLedger(w.now)]) == w.(latest := w.latest + 1)
  {
    assert Init([CloseLedger(w.now)]) == [];
  }

  lemma AfterCloseAndPoll(w: World, id: nat)
    requires w.contract.log == [] && id !in w.polls && Mark(w) <= w.latest
    ensures Run(w, CloseAndPoll(w.now, id))
            == w.(latest := w.latest + 1, polls := w.polls[id := Writing(w.latest + 1)])
  {
    AfterClose(w);
    RunAppend(w, [CloseLedger(w.now)], PollFor(id, "", 5));
    AfterQuietPoll(w.(latest := w.latest + 1), id);
  }

  /** Two ledgers, and after each of them a poll that gets as far as its write. */
  lemma TwoWriters(w: World)
    requires w.contract.log == [] && w.polls == map[] && w.latest == Mark(w) == 0
    ensures Run(w, CloseAndPoll(w.now, 0) + CloseAndPoll(w.now, 1))
            == w.(latest := 2, polls := map[0 := Writing(1), 1 := Writing(2)])
  {
    AfterCloseAndPoll(w, 0);
    var w1 := w.(latest := 1, polls := map[0 := Writing(1)]);
    assert Run(w, CloseAndPoll(w.now, 0)) == w1;
    RunOn(w, CloseAndPoll(w.now, 0), w1, CloseAndPoll(w.now, 1));
    AfterCloseAndPoll(w1, 1);
    assert w1.polls[1 := Writing(2)] == map[0 := Writing(1), 1 := Writing(2)];
  }

  /** setInterval does not wait: an older poll may write after a newer one and take the
      watermark back. It stays safe, as in every run; some ledgers are merely fetched again. */
  lemma OverlapMayStepBack(w: World) returns (before: seq<Action>, last: Action)
    requires Genesis(w)
    ensures Mark(Run(w, before + [last])) < Mark(Run(w, before))
  {
    var two := CloseAndPoll(w.now, 0) + CloseAndPoll(w.now, 1);
    TwoWriters(w);
    RunSnoc(w, two, Await(1, ""));
    before, last := two + [Await(1, "")], Await(0, "");
    RunSnoc(w, before, last);
  }

  // ---- A full page without a cursor ----

  /** Handles the rest of a page and takes the step after its last event. */
  function FinishPage(p: Poll, cache: Cache, stamp: string): (Poll, Cache)
    requires p.Handling? && p.next <= |p.page.events|
    decreases |p.page.events| - p.next
  {
    var r := Next(p, cache, Page([], None, 0), stamp);
    if p.next == |p.page.events| then r else FinishPage(r.0, r.1, stamp)
  }

  /** The cache holds exactly the billing events before this place. */
  ghost predicate CachedUpTo(c: Chain, rows: seq<Row>, place: nat) {
    && place <= Visible(c) <= |c.log|
    && RowsArePrefix(c.log, rows) && |rows| == |Meters(c.log[..place])|
  }

  lemma HandleExactly(c: Chain, rows: seq<Row>, place: nat, stamp: string)
    requires ChainOk(c) && CachedUpTo(c, rows, place) && place < Visible(c)
    ensures CachedUpTo(c, HandleEvent(rows, EventAt(c.log, place), stamp), place + 1)
  {
    VisibleBound(c);
    MetersMonotone(c.log, place, Visible(c));
    HandleKeepsPrefix(c, rows, place, stamp);
    MetersStep(c.log, place);
  }

  /** A poll inside a full page without cursor, with everything before it cached. */
  ghost predicate MidPage(c: Chain, p: Poll, cache: Cache, from: nat) {
    && p.Handling? && p.next <= |p.page.events| == PAGE_LIMIT && p.page.cursor == None
    && CachedUpTo(c, cache.rows, from + p.next) && from + PAGE_LIMIT <= Visible(c)
    && PageFrom(c, p.page, from)
    && if p.next == 0 then p.lastProcessed < c.log[from].ledger
       else p.lastProcessed == c.log[from + p.next - 1].ledger
  }

  predicate PageFrom(c: Chain, page: Page, from: nat) {
    && from + |page.events| <= |c.log|
    && forall j :: 0 <= j < |page.events| ==> page.events[j] == EventAt(c.log, from + j)
  }

  lemma LedgersAscend(log: seq<Entry>, i: nat)
    requires Sorted(log) && i + 1 < |log|
    ensures log[i].ledger <= log[i + 1].ledger
  {
  }

  lemma MidPageStep(c: Chain, p: Poll, cache: Cache, stamp: string, from: nat)
    requires ChainOk(c) && MidPage(c, p, cache, from) && p.next < PAGE_LIMIT
    ensures var r := Next(p, cache, Page([], None, 0), stamp);
            && MidPage(c, r.0, r.1, from) && r.0.next == p.next + 1 && r.0.page == p.page
            && r.1.lastLedger == cache.lastLedger
  {
    var place, r := from + p.next, Next(p, cache, Page([], None, 0), stamp);
    assert p.page.events[p.next] == EventAt(c.log, place);
    HandleExactly(c, cache.rows, place, stamp);
    if p.next > 0 {
      LedgersAscend(c.log, place - 1);
    }
    assert r.0.lastProcessed == c.log[place].ledger;
  }

  lemma {:induction false} FinishesPage(c: Chain, p: Poll, cache: Cache, stamp: string, from: nat)
    requires ChainOk(c) && MidPage(c, p, cache, from)
    ensures var r := FinishPage(p, cache, stamp);
            && r.0 == Rereading(c.log[from + PAGE_LIMIT - 1].ledger, p.page.latestLedger)
            && r.1.lastLedger == cache.lastLedger
            && CachedUpTo(c, r.1.rows, from + PAGE_LIMIT)
    decreases |p.page.events| - p.next
  {
    if p.next < |p.page.events| {
      MidPageStep(c, p, cache, stamp, from);
      var r := Next(p, cache, Page([], None, 0), stamp);
      FinishesPage(c, r.0, r.1, stamp, from);
    }
  }

  /** Exactly which billing events a watermark would leave behind. */
  lemma SafeExactly(c: Chain, rows: seq<Row>, place: nat, mark: nat)
    requires ChainOk(c) && CachedUpTo(c, rows, place) && mark <= c.latest
    ensures Safe(c, rows, mark) <==>
              forall i :: place <= i < |c.log| && c.log[i].ledger <= mark ==> !c.log[i].event.Metered?
  {
    UptoMeaning(c.log, mark);
    var u := Upto(c.log, mark);
    if u <= place {
      MetersMonotone(c.log, u, place);
    } else {
      NoMetersBetween(c.log, place, u);
    }
  }

  lemma {:induction false} NoMetersBetween(log: seq<Entry>, p: nat, u: nat)
    requires p <= u <= |log|
    ensures |Meters(log[..p])| <= |Meters(log[..u])|
    ensures |Meters(log[..u])| == |Meters(log[..p])| <==> forall i :: p <= i < u ==> !log[i].event.Metered?
  {
    if p < u {
      NoMetersBetween(log, p, u - 1);
      MetersStep(log, u - 1);
      assert log[u - 1].event.Metered? ==> |Meters(log[..u])| > |Meters(log[..p])|;
    }
  }

  /** The answer to a poll's first request, stripped of its cursor. */
  function CursorlessPage(c: Chain, last: nat): Page {
    GetEvents(c, FromLedger(last + 1)).(cursor := None)
  }

  /** Everything a poll still does once it has that page: all awaits up to its end. */
  function CursorlessEnd(c: Chain, cache: Cache, stamp: string): (Poll, Cache) {
    var last := LastLedger(cache);
    var r := FinishPage(Handling(last + 1, last, CursorlessPage(c, last), 0), cache, stamp);
    var w := Next(r.0, r.1, Page([], None, 0), stamp);
    Next(w.0, w.1, Page([], None, 0), stamp)
  }

  lemma CursorlessPageIs(c: Chain, last: nat)
    requires ChainOk(c) && last <= c.latest && Upto(c.log, last) + PAGE_LIMIT < Visible(c)
    ensures var from, page := Upto(c.log, last), CursorlessPage(c, last);
            && |page.events| == PAGE_LIMIT && page.cursor == None && page.latestLedger == c.latest
            && from + PAGE_LIMIT < Visible(c) <= |c.log|
            && (forall j :: 0 <= j < PAGE_LIMIT ==> page.events[j] == EventAt(c.log, from + j))
            && last < c.log[from].ledger && last < c.log[from + PAGE_LIMIT - 1].ledger <= c.latest
            && (from == 0 || c.log[from - 1].ledger <= last)
  {
    UptoMeaning(c.log, last);
    UptoMeaning(c.log, c.latest);
  }

  lemma LastAwaits(cache: Cache, lp: nat, latest: nat, stamp: string)
    requires LastLedger(cache) < lp
    ensures var w := Next(Rereading(lp, latest), cache, Page([], None, 0), stamp);
            Next(w.0, w.1, Page([], None, 0), stamp) == (Finished, cache.(lastLedger := Some(lp)))
  {
  }

  lemma CursorlessEndIs(c: Chain, cache: Cache, stamp: string)
    requires ChainOk(c) && LastLedger(cache) <= c.latest
    requires CachedUpTo(c, cache.rows, Upto(c.log, LastLedger(cache)))
    requires Upto(c.log, LastLedger(cache)) + PAGE_LIMIT < Visible(c)
    ensures Upto(c.log, LastLedger(cache)) + PAGE_LIMIT <= |c.log|
    ensures var from, e := Upto(c.log, LastLedger(cache)), CursorlessEnd(c, cache, stamp);
            && e.0 == Finished
            && CachedUpTo(c, e.1.rows, from + PAGE_LIMIT)
            && LastLedger(e.1) == c.log[from + PAGE_LIMIT - 1].ledger <= c.latest
  {
    var last := LastLedger(cache);
    var from, p := Upto(c.log, last), Handling(last + 1, last, CursorlessPage(c, last), 0);
    CursorlessPageIs(c, last);
    assert MidPage(c, p, cache, from);
    FinishesPage(c, p, cache, stamp, from);
    var r := FinishPage(p, cache, stamp);
    LastAwaits(r.1, c.log[from + PAGE_LIMIT - 1].ledger, c.latest, stamp);
  }

  /** If a full page came without a cursor, the poll would end there and move the watermark to
      the ledger of the page's last event. That is safe exactly when no billing event of that
      very ledger lies beyond the page. */
  lemma CursorIsEssential(c: Chain, cache: Cache, stamp: string)
    requires ChainOk(c) && LastLedger(cache) <= c.latest
    requires CachedUpTo(c, cache.rows, Upto(c.log, LastLedger(cache)))
    requires Upto(c.log, LastLedger(cache)) + PAGE_LIMIT < Visible(c)
    ensures var from, e := Upto(c.log, LastLedger(cache)), CursorlessEnd(c, cache, stamp);
            && e.0 == Finished && LastLedger(e.1) == c.log[from + PAGE_LIMIT - 1].ledger
            && (Safe(c, e.1.rows, LastLedger(e.1)) <==>
                  forall i :: from + PAGE_LIMIT <= i < |c.log| && c.log[i].ledger == LastLedger(e.1)
                    ==> !c.log[i].event.Metered?)
  {
    CursorlessEndIs(c, cache, stamp);
    var from, e := Upto(c.log, LastLedger(cache)), CursorlessEnd(c, cache, stamp);
    SafeExactly(c, e.1.rows, from + PAGE_LIMIT, LastLedger(e.1));
  }

  // ---- A ledger too busy for a page without cursor ----

  /** One ledger: a registration at no charge, and then n readings. */
  function BusyLedger(d: Address, o: Address, n: nat): seq<Entry>
    requires n <= U64_MAX
  {
    if n == 0 then [Entry(1, DeviceRegistered(d, o, 0))]
    else BusyLedger(d, o, n - 1) + [Entry(1, Metered(d, 1, 0, 0, n, 0))]
  }

  lemma {:induction false} BusyLedgerIs(d: Address, o: Address, n: nat)
    requires n <= U64_MAX
    ensures var log := BusyLedger(d, o, n);
            && |log| == n + 1
            && (forall i :: 0 <= i < |log| ==> log[i].ledger == 1 && (log[i].event.Metered? <==> 0 < i))
  {
    if n > 0 {
      BusyLedgerIs(d, o, n - 1);
    }
  }

  lemma {:induction false} BusyLedgerTrue(d: Address, o: Address, n: nat)
    requires n <= U64_MAX
    ensures var log := BusyLedger(d, o, n);
            LogTrue(log) && AccountOf(log, d) == Account(o, 0, 0, 0, n, n, 0)
  {
    var log := BusyLedger(d, o, n);
    if n == 0 {
      assert Init(log) == [] && log == [] + [log[0]];
      LogTrueExtend([], log[0]);
    } else {
      var before, e := BusyLedger(d, o, n - 1), Entry(1, Metered(d, 1, 0, 0, n, 0));
      BusyLedgerTrue(d, o, n - 1);
      assert Init(before + [e]) == before && Last(before + [e]) == e;
      LogTrueExtend(before, e);
    }
  }

  /** Such a page does lose readings: a registration and 200 readings in one ledger, of which
      the last does not fit the page, and the mark left behind is not safe. */
  lemma CursorlessPollLosesAReading(d: Address, o: Address, stamp: string)
    ensures var c := Chain(BusyLedger(d, o, PAGE_LIMIT), 1);
            var e := CursorlessEnd(c, Cache([], None), stamp);
            ChainOk(c) && LogTrue(c.log) && e.0 == Finished && LastLedger(e.1) == 1 && !Safe(c, e.1.rows, 1)
  {
    var c := Chain(BusyLedger(d, o, PAGE_LIMIT), 1);
    BusyLedgerIs(d, o, PAGE_LIMIT);
    BusyLedgerTrue(d, o, PAGE_LIMIT);
    UptoIs(c.log, 0, 0);
    UptoIs(c.log, 1, |c.log|);
    assert c.log[..0] == [];
    CursorIsEssential(c, Cache([], None), stamp);
    assert c.log[PAGE_LIMIT].event.Metered?;
  }
}
