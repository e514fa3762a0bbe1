/** The read side: what /api/devices/:id/balance and /api/devices answer, and what that has to
    do with the contract's own ledgers. */
module Api {
  import opened Prelude
  import opened Billing
  import opened Journal
  import opened Store
  import opened Indexer
  import Series

  datatype BalanceView = BalanceView(
    onChainBalance: Option<int>, latestSeq: int, totalUnits: int, totalBilled: int, lastReading: Option<Row>)

  /** What the balance route makes of the rows metricsFor returned and of a later latestSequence. */
  function BalanceFrom(samples: seq<Row>, latestSeq: int): BalanceView {
    var latest := if samples == [] then None else Some(Last(samples));
    BalanceView(if latest.Some? then Some(latest.value.balanceAfter) else None,
                latestSeq, TotalUnits(samples), TotalCost(samples), latest)
  }

  /** The balance route awaits two queries; the table may have grown in between. */
  function Balance(first: seq<Row>, second: seq<Row>, device: Address): BalanceView {
    BalanceFrom(MetricsFor(first, Query(device, "", "")), LatestSequence(second, device))
  }

  // ---- The two routes, await by await ----

  datatype Question =
    | BalanceOf(device: Address)
    | MetricsOf(query: Query, granularity: Series.Granularity)

  datatype Visit =
    | Asked(question: Question)
    | Sampled(question: Question, samples: seq<Row>)
    | BalanceAnswered(device: Address, view: BalanceView)
    | MetricsAnswered(query: Query, granularity: Series.Granularity, series: seq<Series.Bucket>, samples: seq<Row>)

  function QueryOf(q: Question): Query {
    match q
    case BalanceOf(device) => Query(device, "", "")
    case MetricsOf(query, _) => query
  }

  /** The next await of a visit: first metricsFor, then the query beside it. */
  function Proceed(v: Visit, rows: seq<Row>): Visit {
    match v
    case Asked(question) => Sampled(question, MetricsFor(rows, QueryOf(question)))
    case Sampled(BalanceOf(device), samples) =>
      BalanceAnswered(device, BalanceFrom(samples, LatestSequence(rows, device)))
    case Sampled(MetricsOf(query, granularity), samples) =>
      MetricsAnswered(query, granularity, Series.Aggregate(rows, query, granularity), samples)
    case _ => v
  }

  /** The visit is what the queries gave on these two tables. */
  predicate VisitIs(v: Visit, first: seq<Row>, second: seq<Row>) {
    match v
    case Asked(_) => true
    case Sampled(question, samples) => samples == MetricsFor(first, QueryOf(question))
    case BalanceAnswered(device, view) => view == Balance(first, second, device)
    case MetricsAnswered(query, granularity, series, samples) =>
      series == Series.Aggregate(second, query, granularity) && samples == MetricsFor(first, query)
  }

  // ---- Rows against accounts ----

  /** After the first billing events, the device's rows say what its account says. */
  predicate OwnMatches(own: seq<Row>, a: Account) {
    && (a.Unknown? ==> own == [])
    && (a.Account? ==> |own| == a.readings && TotalUnits(own) == a.units && TotalCost(own) == a.billed)
    && forall i :: 0 <= i < |own| ==> own[i].seqNo == i + 1
  }

  lemma OwnMatchesPost(own: seq<Row>, a: Account, device: Address, event: Event, r: Row)
    requires OwnMatches(own, a) && a.Account? && event.Metered? && event.device == device
    requires event.seqNo == a.readings + 1
    requires r.seqNo == event.seqNo && r.units == event.units && r.cost == event.cost
    ensures OwnMatches(own + [r], Post(a, device, event))
  {
    TotalsExtend(own, r);
  }

  /** The account after one more event, and the billing events before and after it. */
  lemma AccountStep(log: seq<Entry>, device: Address, p: nat)
    requires LogTrue(log) && p < |log|
    ensures AccountOf(log[..p + 1], device) == Post(AccountOf(log[..p], device), device, log[p].event)
    ensures log[p].event.Metered? && log[p].event.device == device ==>
              var a, m := AccountOf(log[..p], device), log[p].event;
              a.Account? && m.seqNo == a.readings + 1 && m.balanceAfter == a.toppedUp - a.billed - m.cost
    ensures log[p].event.DeviceRegistered? && log[p].event.device == device ==> AccountOf(log[..p], device).Unknown?
  {
    assert Init(log[..p + 1]) == log[..p] && Last(log[..p + 1]) == log[p];
    assert EntryTrue(log[..p], log[p].event);
  }

  lemma OwnStep(log: seq<Entry>, rows: seq<Row>, device: Address, p: nat)
    requires RowsArePrefix(log, rows) && p < |log| && |Meters(log[..p + 1])| <= |rows|
    ensures |Meters(log[..p])| <= |Meters(log[..p + 1])|
    ensures var before, after := Own(rows[..|Meters(log[..p])|], device), Own(rows[..|Meters(log[..p + 1])|], device);
            if log[p].event.Metered? && log[p].event.device == device
            then && after != [] && before == Init(after)
                 && Records(Last(after), log, p)
            else after == before
  {
    MetersStep(log, p);
    if log[p].event.Metered? {
      var n := |Meters(log[..p])|;
      assert Records(rows[n], log, Meters(log)[n]);
      assert rows[..n + 1] == rows[..n] + [rows[n]];
      OwnExtend(rows[..n], rows[n], device);
    }
  }

  lemma {:induction false} OwnMatchesAccount(log: seq<Entry>, rows: seq<Row>, device: Address, p: nat)
    requires LogTrue(log) && RowsArePrefix(log, rows)
    requires p <= |log| && |Meters(log[..p])| <= |rows|
    ensures OwnMatches(Own(rows[..|Meters(log[..p])|], device), AccountOf(log[..p], device))
  {
    if p > 0 {
      OwnStep(log, rows, device, p - 1);
      OwnMatchesAccount(log, rows, device, p - 1);
      AccountStep(log, device, p - 1);
      var event := log[p - 1].event;
      if event.Metered? && event.device == device {
        var after := Own(rows[..|Meters(log[..p])|], device);
        OwnMatchesPost(Init(after), AccountOf(log[..p - 1], device), device, event, Last(after));
        assert after == Init(after) + [Last(after)];
      } else {
        OwnMatchesElse(Own(rows[..|Meters(log[..p])|], device), AccountOf(log[..p - 1], device), device, event);
      }
    }
  }

  lemma OwnMatchesElse(own: seq<Row>, a: Account, device: Address, event: Event)
    requires OwnMatches(own, a) && !(event.Metered? && event.device == device)
    requires event.DeviceRegistered? && event.device == device ==> a.Unknown?
    ensures OwnMatches(own, Post(a, device, event))
  {
  }

  /** A row's place tells how many billing events come before it. */
  lemma PlaceOfRow(log: seq<Entry>, rows: seq<Row>, j: nat)
    requires RowsArePrefix(log, rows) && j < |rows|
    ensures rows[j].eventId < |log| && Records(rows[j], log, rows[j].eventId)
    ensures |Meters(log[..rows[j].eventId])| == j && |Meters(log[..rows[j].eventId + 1])| == j + 1
  {
    assert Records(rows[j], log, Meters(log)[j]);
    var place := rows[j].eventId;
    MetersStep(log, place);
    MetersMeaning(log);
  }

  /** The device's newest row, and the table as it was when that row came in. */
  lemma {:induction false} NewestOwn(rows: seq<Row>, device: Address) returns (j: nat)
    requires Own(rows, device) != []
    ensures j < |rows| && rows[j].device == device
    ensures Own(rows[..j + 1], device) == Own(rows, device) && Last(Own(rows, device)) == rows[j]
  {
    if Last(rows).device == device {
      j := |rows| - 1;
      assert rows[..j + 1] == rows;
    } else {
      j := NewestOwn(Init(rows), device);
      assert Init(rows)[..j + 1] == rows[..j + 1];
    }
  }

  lemma {:induction false} InsertAtEnd(sorted: seq<Row>, r: Row)
    requires forall i :: 0 <= i < |sorted| ==> sorted[i].seqNo <= r.seqNo
    ensures InsertBySeq(sorted, r) == sorted + [r]
  {
    if sorted != [] {
      InsertAtEnd(sorted[1..], r);
    }
  }

  lemma {:induction false} AscendingMetrics(rows: seq<Row>, device: Address)
    requires forall i :: 0 <= i < |Own(rows, device)| ==> Own(rows, device)[i].seqNo == i + 1
    ensures MetricsFor(rows, Query(device, "", "")) == Own(rows, device)
  {
    if rows != [] {
      var before := Own(Init(rows), device);
      if Last(rows).device == device {
        assert Own(rows, device) == before + [Last(rows)];
        assert forall i :: 0 <= i < |before| ==> before[i] == Own(rows, device)[i];
        assert Own(rows, device)[|before|] == Last(rows);
        AscendingMetrics(Init(rows), device);
        InsertAtEnd(before, Last(rows));
      } else {
        assert Own(rows, device) == before;
        AscendingMetrics(Init(rows), device);
      }
    }
  }

  /** The billing event that brought a device's newest row: the chain up to and including it. */
  ghost predicate NewestReading(log: seq<Entry>, rows: seq<Row>, device: Address, p: nat) {
    && 0 < p <= |log|
    && log[p - 1].event.Metered? && log[p - 1].event.device == device
    && exists j: nat :: j < |rows| && rows[j].eventId == p - 1
  }

  lemma OwnAppend(rows: seq<Row>, more: seq<Row>, device: Address)
    ensures Own(rows + more, device) == Own(rows, device) + Own(more, device)
  {
    MatchingAppend(rows, more, Query(device, "", ""));
  }

  lemma OwnOfPrefix(first: seq<Row>, second: seq<Row>, device: Address)
    requires first <= second
    ensures Own(first, device) <= Own(second, device)
  {
    assert second == first + second[|first|..];
    OwnAppend(first, second[|first|..], device);
  }

  predicate Numbered(own: seq<Row>) {
    forall i :: 0 <= i < |own| ==> own[i].seqNo == i + 1
  }

  /** What the route answers when its first query saw rows numbered 1 to k and its second one
      rows numbered 1 to l: balance and totals of k, sequence l. */
  lemma BalanceOfOwn(first: seq<Row>, second: seq<Row>, device: Address)
    requires first <= second && Numbered(Own(second, device))
    ensures var b, own, l := Balance(first, second, device), Own(first, device), |Own(second, device)|;
            if own == [] then b == BalanceView(None, l, 0, 0, None)
            else b == BalanceView(Some(Last(own).balanceAfter), l, TotalUnits(own), TotalCost(own), Some(Last(own)))
    ensures 0 < |Own(first, device)| ==> Last(Own(first, device)).seqNo == |Own(first, device)|
  {
    OwnOfPrefix(first, second, device);
    var own := Own(second, device);
    assert forall i :: 0 <= i < |Own(first, device)| ==> Own(first, device)[i] == own[i];
    AscendingMetrics(first, device);
    LatestSequenceMeaning(second, device);
    if own != [] {
      assert own[|own| - 1].seqNo == |own|;
    }
  }

  /** The answer is one the route could have given from a single look at the cache exactly when
      no row of the device was ingested between its two queries. */
  lemma BalanceCoherentExactly(first: seq<Row>, second: seq<Row>, device: Address)
    requires first <= second && Numbered(Own(second, device))
    ensures Balance(first, second, device) == Balance(first, first, device)
            <==> |Own(first, device)| == |Own(second, device)|
  {
    BalanceOfOwn(first, second, device);
    OwnOfPrefix(first, second, device);
    assert forall i :: 0 <= i < |Own(first, device)| ==> Own(first, device)[i] == Own(second, device)[i];
    BalanceOfOwn(first, first, device);
  }

  /** The account right after the device's newest cached reading. */
  lemma NewestAccount(log: seq<Entry>, rows: seq<Row>, device: Address) returns (p: nat)
    requires LogTrue(log) && RowsArePrefix(log, rows) && Own(rows, device) != []
    ensures NewestReading(log, rows, device, p)
    ensures var a, own := AccountOf(log[..p], device), Own(rows, device);
            a.Account? && OwnMatches(own, a) && Last(own).balanceAfter == a.toppedUp - a.billed
  {
    var j := NewestOwn(rows, device);
    PlaceOfRow(log, rows, j);
    p := rows[j].eventId + 1;
    OwnMatchesAccount(log, rows, device, p);
    AccountStep(log, device, p - 1);
  }

  lemma NumberedRows(log: seq<Entry>, rows: seq<Row>, device: Address)
    requires LogTrue(log) && RowsArePrefix(log, rows)
    ensures Numbered(Own(rows, device))
  {
    if Own(rows, device) != [] {
      var p := NewestAccount(log, rows, device);
    }
  }

  /** Balance and totals are the contract's own as they stood right after the newest reading the
      first query saw; the sequence number is the contract's own right after the newest reading
      the second query saw. A device without cached readings answers with zeros and no balance. */
  lemma {:induction false} BalanceIsContractThen(log: seq<Entry>, first: seq<Row>, second: seq<Row>, device: Address) returns (p: nat)
    requires LogTrue(log) && RowsArePrefix(log, second) && first <= second
    ensures var b := Balance(first, second, device);
            && b.latestSeq == |Own(second, device)|
            && if Own(first, device) == [] then b == BalanceView(None, b.latestSeq, 0, 0, None)
            else
              && NewestReading(log, first, device, p)
              && var a := AccountOf(log[..p], device);
                 && a.Account?
                 && a.readings == |Own(first, device)| == Last(Own(first, device)).seqNo
                 && b.totalUnits == a.units && b.totalBilled == a.billed
                 && b.onChainBalance == Some(a.toppedUp - a.billed)
                 && b.lastReading == Some(Last(Own(first, device)))
  {
    p := 0;
    if Own(first, device) != [] {
      p := NewestAccount(log, first, device);
    }
    NumberedRows(log, second, device);
    BalanceOfOwn(first, second, device);
  }

  /** The answer is this account's. */
  predicate Shows(b: BalanceView, a: Account) {
    && a.Account? && b.onChainBalance == Some(a.toppedUp - a.billed)
    && b.latestSeq == a.readings && b.totalUnits == a.units && b.totalBilled == a.billed
  }

  /** The chain passed through a moment that the answer shows exactly when no row of the device
      was ingested between the route's two queries. */
  lemma ShowsAMomentExactly(log: seq<Entry>, first: seq<Row>, second: seq<Row>, device: Address) returns (p: nat)
    requires LogTrue(log) && RowsArePrefix(log, second) && first <= second && Own(first, device) != []
    ensures p <= |log|
    ensures Shows(Balance(first, second, device).(latestSeq := |Own(first, device)|), AccountOf(log[..p], device))
    ensures (exists q: nat :: q <= |log| && Shows(Balance(first, second, device), AccountOf(log[..q], device)))
            <==> |Own(first, device)| == |Own(second, device)|
  {
    p := BalanceIsContractThen(log, first, second, device);
    OwnOfPrefix(first, second, device);
    var b := Balance(first, second, device);
    assert Shows(b.(latestSeq := |Own(first, device)|), AccountOf(log[..p], device));
    if q: nat :| q <= |log| && Shows(b, AccountOf(log[..q], device)) {
      AccountsApart(log, p, q, device);
    }
  }

  /** More readings, more units: two moments that differ in one differ in the other. */
  lemma AccountsApart(log: seq<Entry>, p: nat, q: nat, device: Address)
    requires LogTrue(log) && p <= |log| && q <= |log|
    requires AccountOf(log[..p], device).Account? && AccountOf(log[..q], device).Account?
    ensures var a, b := AccountOf(log[..p], device), AccountOf(log[..q], device);
            a.readings < b.readings ==> a.units < b.units
  {
    if p <= q {
      LogTruePrefix(log, q);
      assert log[..q][..p] == log[..p];
      RegistrationIsFinal(log[..q], p, device);
    } else {
      LogTruePrefix(log, p);
      assert log[..p][..q] == log[..q];
      RegistrationIsFinal(log[..p], q, device);
    }
  }

  /** The route's on_chain_balance is the deposit now, plus what was billed since the newest
      cached reading, minus what was topped up since: it is the current deposit exactly when
      those two cancel. */
  lemma {:induction false} BalanceLag(log: seq<Entry>, first: seq<Row>, second: seq<Row>, device: Address) returns (p: nat)
    requires LogTrue(log) && RowsArePrefix(log, second) && first <= second && Own(first, device) != []
    ensures NewestReading(log, first, device, p) && AccountOf(log[..p], device).Account?
    ensures var earlier, now, served := AccountOf(log[..p], device), AccountOf(log, device),
                                        Balance(first, second, device).onChainBalance;
            && now.Account? && served.Some?
            && served.value == (now.toppedUp - now.billed) + (now.billed - earlier.billed) - (now.toppedUp - earlier.toppedUp)
            && (served.value == now.toppedUp - now.billed <==>
                  now.toppedUp - earlier.toppedUp == now.billed - earlier.billed)
  {
    p := BalanceIsContractThen(log, first, second, device);
    RegistrationIsFinal(log, p, device);
  }

  // ---- The listing against the operators' ledgers ----

  function Costs(list: map<Address, Summary>): map<Address, int> {
    map d | d in list :: list[d].totalCost
  }

  function CostsAmong(list: map<Address, Summary>, keep: Address -> bool): map<Address, int> {
    map d | d in list && keep(d) :: list[d].totalCost
  }

  function ServedBy(log: seq<Entry>, operator: Address): Address -> bool {
    d => AccountOf(log, d).Account? && AccountOf(log, d).operator == operator
  }

  /** Only the devices registered with this operator. */
  function CostsUnder(list: map<Address, Summary>, log: seq<Entry>, operator: Address): map<Address, int> {
    CostsAmong(list, ServedBy(log, operator))
  }

  lemma {:induction false} ListingAddsUp(rows: seq<Row>)
    ensures Sum(Costs(ListDevices(rows))) == TotalCost(rows)
  {
    if rows != [] {
      var r, before := Last(rows), ListDevices(Init(rows));
      ListingAddsUp(Init(rows));
      SumUpdate(Costs(before), r.device, Get(Costs(before), r.device) + r.cost);
      assert Costs(Summarize(before, r)) == Costs(before)[r.device := Get(Costs(before), r.device) + r.cost];
    }
  }

  /** What one more event adds to an operator's earnings; the operator of a device is the
      same now as it was then. */
  lemma EarnedStep(log: seq<Entry>, p: nat, operator: Address)
    requires LogTrue(log) && p < |log|
    ensures Earned(log[..p + 1], operator) == Earned(log[..p], operator) +
              match log[p].event
              case Metered(d, _, cost, _, _, _) => if ServedBy(log, operator)(d) then cost else 0
              case _ => 0
  {
    assert Init(log[..p + 1]) == log[..p] && Last(log[..p + 1]) == log[p];
    assert EntryTrue(log[..p], log[p].event);
    if log[p].event.Metered? {
      RegistrationIsFinal(log, p, log[p].event.device);
    }
  }

  lemma ListingStep(rows: seq<Row>, n: nat, keep: Address -> bool)
    requires n < |rows|
    ensures Sum(CostsAmong(ListDevices(rows[..n + 1]), keep))
            == Sum(CostsAmong(ListDevices(rows[..n]), keep)) + if keep(rows[n].device) then rows[n].cost else 0
  {
    assert Init(rows[..n + 1]) == rows[..n] && Last(rows[..n + 1]) == rows[n];
    SummarizeAmong(ListDevices(rows[..n]), keep, rows[n]);
  }

  /** The next billing event of the chain, and the row that records it. */
  lemma NextRow(log: seq<Entry>, rows: seq<Row>, p: nat)
    requires RowsArePrefix(log, rows) && p < |log| && |Meters(log[..p + 1])| <= |rows|
    ensures |Meters(log[..p + 1])| == |Meters(log[..p])| + if log[p].event.Metered? then 1 else 0
    ensures log[p].event.Metered? ==>
              var n := |Meters(log[..p])|;
              n < |rows| && rows[n].device == log[p].event.device && rows[n].cost == log[p].event.cost
  {
    MetersStep(log, p);
    if log[p].event.Metered? {
      var n := |Meters(log[..p])|;
      assert Records(rows[n], log, Meters(log)[n]);
    }
  }

  /** What the listing would show for the kept devices after the first n rows. */
  ghost function ListedAmong(rows: seq<Row>, n: nat, keep: Address -> bool): int
    requires n <= |rows|
  {
    Sum(CostsAmong(ListDevices(rows[..n]), keep))
  }

  lemma ListedWithEarned(log: seq<Entry>, rows: seq<Row>, operator: Address, p: nat)
    requires LogTrue(log) && RowsArePrefix(log, rows) && p < |log| && |Meters(log[..p + 1])| <= |rows|
    ensures |Meters(log[..p])| <= |Meters(log[..p + 1])|
    ensures var keep := ServedBy(log, operator);
            ListedAmong(rows, |Meters(log[..p + 1])|, keep) - ListedAmong(rows, |Meters(log[..p])|, keep)
            == Earned(log[..p + 1], operator) - Earned(log[..p], operator)
  {
    NextRow(log, rows, p);
    EarnedStep(log, p, operator);
    if log[p].event.Metered? {
      ListingStep(rows, |Meters(log[..p])|, ServedBy(log, operator));
    }
  }

  lemma {:induction false} ListingUnderOperator(log: seq<Entry>, rows: seq<Row>, operator: Address, p: nat)
    requires LogTrue(log) && RowsArePrefix(log, rows)
    requires p <= |log| && |Meters(log[..p])| <= |rows|
    ensures ListedAmong(rows, |Meters(log[..p])|, ServedBy(log, operator)) == Earned(log[..p], operator)
  {
    if p == 0 {
      assert log[..0] == [] && rows[..0] == [];
    } else {
      ListedWithEarned(log, rows, operator, p - 1);
      ListingUnderOperator(log, rows, operator, p - 1);
    }
  }

  lemma SummarizeAmong(list: map<Address, Summary>, keep: Address -> bool, r: Row)
    ensures Sum(CostsAmong(Summarize(list, r), keep))
            == Sum(CostsAmong(list, keep)) + if keep(r.device) then r.cost else 0
  {
    var among := CostsAmong(list, keep);
    if keep(r.device) {
      SumUpdate(among, r.device, Get(among, r.device) + r.cost);
      assert CostsAmong(Summarize(list, r), keep) == among[r.device := Get(among, r.device) + r.cost];
    } else {
      assert CostsAmong(Summarize(list, r), keep) == among;
    }
  }

  /** Once every billing event is cached, the listed costs of an operator's devices add up to
      exactly what the contract says the operator has earned. */
  lemma CaughtUpListing(log: seq<Entry>, rows: seq<Row>, operator: Address)
    requires LogTrue(log) && RowsArePrefix(log, rows) && |rows| == |Meters(log)|
    ensures Sum(CostsUnder(ListDevices(rows), log, operator)) == Earned(log, operator)
  {
    assert log[..|log|] == log && rows[..|rows|] == rows;
    ListingUnderOperator(log, rows, operator, |log|);
  }

  // ---- All operators together ----

  function Billed(log: seq<Entry>): int {
    if log == [] then 0
    else Billed(Init(log)) + match Last(log).event case Metered(_, _, cost, _, _, _) => cost case _ => 0
  }

  /** A ledger of earnings that leaves out no operator with earnings adds up to all billing. */
  lemma {:induction false} EarningsAddUp(log: seq<Entry>, earned: map<Address, int>)
    requires LogTrue(log)
    requires forall o: Address :: Get(earned, o) == Earned(log, o)
    ensures Sum(earned) == Billed(log)
    decreases |log|
  {
    if log == [] {
      forall o | o in earned ensures earned[o] == 0 {
        assert Get(earned, o) == Earned(log, o);
      }
      SumOfZeros(earned);
    } else {
      var front, event := Init(log), Last(log).event;
      LogTruePrefix(log, |log| - 1);
      assert EntryTrue(log[..|log| - 1], log[|log| - 1].event);
      assert forall o: Address :: Earned(log, o) == Get(earned, o);
      if event.Metered? {
        var o := AccountOf(front, event.device).operator;
        var before := earned[o := Get(earned, o) - event.cost];
        forall x: Address ensures Get(before, x) == Earned(front, x) {
          assert Get(earned, x) == Earned(log, x);
        }
        EarningsAddUp(front, before);
        SumUpdate(earned, o, Get(earned, o) - event.cost);
      } else {
        forall x: Address ensures Get(earned, x) == Earned(front, x) {
          assert Get(earned, x) == Earned(log, x);
        }
        EarningsAddUp(front, earned);
      }
    }
  }

  lemma {:induction false} SumOfZeros(m: map<Address, int>)
    requires forall o :: o in m ==> m[o] == 0
    ensures Sum(m) == 0
    decreases |m|
  {
    if m != map[] {
      var k :| k in m && Sum(m) == m[k] + Sum(m - {k});
      SumOfZeros(m - {k});
    }
  }

  /** One more event of the chain, in the table's total cost and in what was billed. */
  lemma TableCostStep(log: seq<Entry>, rows: seq<Row>, p: nat)
    requires RowsArePrefix(log, rows) && p < |log| && |Meters(log[..p + 1])| <= |rows|
    ensures |Meters(log[..p])| <= |Meters(log[..p + 1])|
    ensures TotalCost(rows[..|Meters(log[..p + 1])|]) - TotalCost(rows[..|Meters(log[..p])|])
            == Billed(log[..p + 1]) - Billed(log[..p])
  {
    NextRow(log, rows, p);
    assert Init(log[..p + 1]) == log[..p] && Last(log[..p + 1]) == log[p];
    if log[p].event.Metered? {
      var n := |Meters(log[..p])|;
      assert rows[..n + 1] == rows[..n] + [rows[n]];
      TotalsExtend(rows[..n], rows[n]);
    }
  }

  lemma {:induction false} TableCost(log: seq<Entry>, rows: seq<Row>, p: nat)
    requires RowsArePrefix(log, rows)
    requires p <= |log| && |Meters(log[..p])| <= |rows|
    ensures TotalCost(rows[..|Meters(log[..p])|]) == Billed(log[..p])
  {
    if p > 0 {
      TableCostStep(log, rows, p - 1);
      TableCost(log, rows, p - 1);
    }
  }

  function EarnedLedger(operators: map<Address, OperatorBalance>): map<Address, int> {
    map o | o in operators :: operators[o].totalEarned
  }

  /** Once every billing event is cached, the listed costs of all devices add up to the
      earnings of all operators. */
  lemma CaughtUpTotals(s: State, rows: seq<Row>)
    requires LogDetermines(s) && LogTrue(s.log)
    requires RowsArePrefix(s.log, rows) && |rows| == |Meters(s.log)|
    ensures Sum(Costs(ListDevices(rows))) == Sum(EarnedLedger(s.operators))
  {
    ListingAddsUp(rows);
    assert s.log[..|s.log|] == s.log && rows[..|rows|] == rows;
    TableCost(s.log, rows, |s.log|);
    forall o: Address ensures Get(EarnedLedger(s.operators), o) == Earned(s.log, o) {
      assert OperatorAgrees(s, o);
    }
    EarningsAddUp(s.log, EarnedLedger(s.operators));
  }
}
