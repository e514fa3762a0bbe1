/** A small deployment in which particular things happen: the witnesses beside the theorems
    that say exactly when they do. */
module Scenario {
  import opened Prelude
  import opened Codec
  import opened Billing
  import opened Store
  import opened Indexer
  import opened Emulator
  import opened Api
  import opened World
  import opened Watermark
  import opened EndToEnd

  const DEVICE: Address := Address(1)
  const TWIN: Address := Address(2)
  const OPERATOR: Address := Address(3)
  const TOKEN: Address := Address(4)

  /** Both devices own ten tokens. */
  function Fresh(): World {
    World(Deployed(TOKEN, map[DEVICE := 10, TWIN := 10]), 0, 0, 0, map[], {}, Cache([], None), map[], map[])
  }

  lemma FreshIsGenesis()
    ensures Genesis(Fresh())
  {
    SumUpdate(map[], DEVICE, 10);
    SumUpdate(map[DEVICE := 10], TWIN, 10);
    assert map[][DEVICE := 10] == map[DEVICE := 10];
    assert map[DEVICE := 10][TWIN := 10] == Fresh().contract.wallets;
  }

  function Open(d: Address): seq<Action> {
    [Transaction(Register(d, SomeKey(), OPERATOR, 1), {d, OPERATOR}), Transaction(Deposit(d, 5), {d})]
  }

  function ReadingNo(n: nat): Reading
    requires n <= U64_MAX
  {
    Reading(n, 1, 0)
  }

  function SubmitNo(d: Address, n: nat): Action
    requires n <= U64_MAX
  {
    Transaction(Submit(d, ReadingNo(n), Signature(SomeKey(), Message(SomeKey(), ReadingNo(n)))), {})
  }

  /** This device is registered at rate 1 and has been billed n readings of one unit. */
  predicate Stands(s: State, d: Address, deposit: int, n: nat) {
    && d in s.registrations && s.registrations[d].pubkey == SomeKey() && s.registrations[d].operator == OPERATOR
    && s.registrations[d].status == Active
    && d in s.tariffs && s.tariffs[d] == 1 && d in s.deposits && s.deposits[d] == deposit
    && Counter(s, d).lastSeq == n == Counter(s, d).cumulativeUnits
  }

  /** Nothing changed for this device. */
  predicate Untouched(s: State, s': State, e: Address) {
    && (e in s.registrations <==> e in s'.registrations)
    && (e in s.registrations ==> s'.registrations[e] == s.registrations[e])
    && (e in s.tariffs <==> e in s'.tariffs) && (e in s.tariffs ==> s'.tariffs[e] == s.tariffs[e])
    && (e in s.deposits <==> e in s'.deposits) && (e in s.deposits ==> s'.deposits[e] == s.deposits[e])
    && Counter(s', e) == Counter(s, e)
  }

  predicate OnlyContract(w: World, w': World) {
    w' == w.(contract := w'.contract)
  }

  predicate JustRegistered(w: World, w': World, d: Address, e: Address) {
    var s, s' := w.contract, w'.contract;
    && OnlyContract(w, w') && Stands(s', d, 0, 0) && Untouched(s, s', e)
    && s'.token == s.token && s'.operators == s.operators && s'.wallets == s.wallets
    && s'.readings == s.readings && s'.registrations.Keys == s.registrations.Keys + {d}
    && s'.log == s.log + [Entry(w.latest + 1, DeviceRegistered(d, OPERATOR, 1))]
  }

  predicate ToppedUp(w: World, w': World, d: Address, deposit: nat, n: nat, e: Address)
    requires deposit <= 100
  {
    var s, s' := w.contract, w'.contract;
    && OnlyContract(w, w') && Stands(s', d, deposit + 5, n) && Untouched(s, s', e)
    && s'.token == s.token && s'.operators == s.operators
    && s'.readings == s.readings && s'.registrations == s.registrations
    && s'.wallets == Transfer(s.wallets, d, SELF, 5)
    && s'.log == s.log + [Entry(w.latest + 1, Deposited(d, 5, deposit + 5))]
  }

  predicate Opened(w: World, w': World, d: Address, e: Address) {
    var s, s' := w.contract, w'.contract;
    && OnlyContract(w, w') && Stands(s', d, 5, 0) && Untouched(s, s', e)
    && s'.token == s.token && s'.operators == s.operators && s'.readings == s.readings
    && s'.registrations.Keys == s.registrations.Keys + {d}
    && s'.wallets == Transfer(s.wallets, d, SELF, 5)
    && s'.log == s.log + [Entry(w.latest + 1, DeviceRegistered(d, OPERATOR, 1)),
                          Entry(w.latest + 1, Deposited(d, 5, 5))]
  }

  lemma RegisterStep(w: World, d: Address, e: Address)
    requires d != SELF && d !in w.contract.registrations && d !in w.contract.readings && e != d
    ensures JustRegistered(w, Step(w, Open(d)[0]), d, e)
  {
  }

  lemma DepositStep(w: World, d: Address, deposit: nat, n: nat, e: Address)
    requires d != SELF && Stands(w.contract, d, deposit, n) && w.contract.token.Some? && e != d
    requires deposit <= 100 && 5 <= Get(w.contract.wallets, d) && 0 <= Get(w.contract.wallets, SELF) <= 100
    ensures ToppedUp(w, Step(w, Open(d)[1]), d, deposit, n, e)
  {
  }

  lemma OpenedBy(w: World, w1: World, w2: World, d: Address, e: Address)
    requires JustRegistered(w, w1, d, e) && ToppedUp(w1, w2, d, 0, 0, e)
    ensures Opened(w, w2, d, e)
  {
  }

  lemma OpenSteps(w: World, d: Address, e: Address)
    requires d != SELF && d !in w.contract.registrations && d !in w.contract.readings && e != d
    requires w.contract.token.Some?
    requires Get(w.contract.wallets, d) == 10 && 0 <= Get(w.contract.wallets, SELF) <= 100
    ensures Opened(w, Run(w, Open(d)), d, e)
  {
    var a := Open(d);
    RunTwo(w, a);
    var w1 := Step(w, a[0]);
    RegisterStep(w, d, e);
    DepositStep(w1, d, 0, 0, e);
    OpenedBy(w, w1, Step(w1, a[1]), d, e);
  }

  predicate BilledOne(w: World, w': World, d: Address, deposit: int, n: nat, e: Address)
    requires n < 100 && I128_MAX >= deposit > 0
  {
    var s, s' := w.contract, w'.contract;
    && OnlyContract(w, w') && Stands(s', d, deposit - 1, n + 1) && Untouched(s, s', e)
    && s'.token == s.token && s'.wallets == s.wallets && s'.registrations == s.registrations
    && OperatorLedger(s', OPERATOR).totalEarned == OperatorLedger(s, OPERATOR).totalEarned + 1
    && s'.log == s.log + [Entry(w.latest + 1, Metered(d, 1, 1, deposit - 1, n + 1, w.now))]
  }

  lemma BillStep(w: World, d: Address, deposit: int, n: nat, e: Address)
    requires n < 100 && Stands(w.contract, d, deposit, n) && 1 <= deposit && e != d
    requires OperatorLedger(w.contract, OPERATOR).totalEarned <= 100
    requires (SomeKey(), Message(SomeKey(), ReadingNo(n + 1))) in w.signed
    ensures BilledOne(w, Step(w, SubmitNo(d, n + 1)), d, deposit, n, e)
  {
    assert Billable(w.contract, EnvOf(w, {}), d, ReadingNo(n + 1), Signature(SomeKey(), Message(SomeKey(), ReadingNo(n + 1))));
  }

  predicate EmittedOne(w: World, w': World, n: nat)
    requires n < 100
  {
    && w' == w.(devices := w'.devices,
                signed := w.signed + {(SomeKey(), Message(SomeKey(), ReadingNo(n + 1)))})
    && DeviceOf(w', SomeKey()) == Device(n + 1, DeviceOf(w, SomeKey()).emitted + [ReadingNo(n + 1)])
  }

  lemma EmitOne(w: World, n: nat)
    requires DeviceOf(w, SomeKey()).seqNo == n < 100
    ensures EmittedOne(w, Step(w, Emit(SomeKey(), 1, 0)), n)
  {
  }

  // ---- Two readings billed, the first of them cached, a poll and two visits under way ----

  function EmitAndSubmit(n: nat): seq<Action>
    requires n <= U64_MAX
  {
    [Emit(SomeKey(), 1, 0), SubmitNo(DEVICE, n)]
  }

  predicate EmittedAndBilled(w: World, w': World, deposit: int, n: nat)
    requires n < 100 && I128_MAX >= deposit > 0
  {
    var s, s' := w.contract, w'.contract;
    && w' == w.(contract := s', devices := w'.devices, signed := w'.signed)
    && Stands(s', DEVICE, deposit - 1, n + 1) && s'.token == s.token && s'.wallets == s.wallets
    && DeviceOf(w', SomeKey()).seqNo == n + 1
    && OperatorLedger(s', OPERATOR).totalEarned == OperatorLedger(s, OPERATOR).totalEarned + 1
    && s'.log == s.log + [Entry(w.latest + 1, Metered(DEVICE, 1, 1, deposit - 1, n + 1, w.now))]
  }

  lemma BilledAfterEmission(w: World, w1: World, w2: World, deposit: int, n: nat)
    requires n < 100 && I128_MAX >= deposit > 0
    requires EmittedOne(w, w1, n) && BilledOne(w1, w2, DEVICE, deposit, n, TWIN)
    ensures EmittedAndBilled(w, w2, deposit, n)
  {
  }

  lemma EmitAndSubmitSteps(w: World, deposit: int, n: nat)
    requires n < 100 && Stands(w.contract, DEVICE, deposit, n) && 1 <= deposit
    requires DeviceOf(w, SomeKey()).seqNo == n && OperatorLedger(w.contract, OPERATOR).totalEarned <= 100
    ensures EmittedAndBilled(w, Run(w, EmitAndSubmit(n + 1)), deposit, n)
  {
    var a := EmitAndSubmit(n + 1);
    RunTwo(w, a);
    var w1 := Step(w, a[0]);
    EmitOne(w, n);
    BillStep(w1, DEVICE, deposit, n, TWIN);
    BilledAfterEmission(w, w1, Step(w1, a[1]), deposit, n);
  }

  function TwoReadings(): seq<Action> {
    Open(DEVICE) + EmitAndSubmit(1) + EmitAndSubmit(2) + [CloseLedger(0)]
  }

  function BillingLog(): seq<Entry> {
    [Entry(1, DeviceRegistered(DEVICE, OPERATOR, 1)), Entry(1, Deposited(DEVICE, 5, 5)),
     Entry(1, Metered(DEVICE, 1, 1, 4, 1, 0)), Entry(1, Metered(DEVICE, 1, 1, 3, 2, 0))]
  }

  /** Two readings are on the chain and nothing is in the cache. */
  predicate TwoBilled(w: World) {
    && w.contract.log == BillingLog() && w.latest == 1 && w.now == 0
    && Stands(w.contract, DEVICE, 3, 2) && w.contract.token.Some?
    && Get(w.contract.wallets, DEVICE) == 5 && Get(w.contract.wallets, SELF) == 5
    && w.cache == Cache([], None) && w.polls == map[] && w.visits == map[]
  }

  /** The device is open, and n of the two readings are billed. */
  predicate Stage(w: World, n: nat) {
    && n <= 2 && w.contract.log == BillingLog()[..n + 2] && w.latest == 0 && w.now == 0
    && Stands(w.contract, DEVICE, 5 - n, n) && w.contract.token.Some?
    && OperatorLedger(w.contract, OPERATOR).totalEarned == n && DeviceOf(w, SomeKey()).seqNo == n
    && Get(w.contract.wallets, DEVICE) == 5 && Get(w.contract.wallets, SELF) == 5
    && w.cache == Cache([], None) && w.polls == map[] && w.visits == map[]
  }

  lemma StageOpen()
    ensures Stage(Run(Fresh(), Open(DEVICE)), 0)
  {
    OpenSteps(Fresh(), DEVICE, TWIN);
    assert BillingLog()[..2] == [] + [BillingLog()[0], BillingLog()[1]];
  }

  lemma StageNext(w: World, n: nat)
    requires n < 2 && Stage(w, n)
    ensures Stage(Run(w, EmitAndSubmit(n + 1)), n + 1)
  {
    EmitAndSubmitSteps(w, 5 - n, n);
    assert BillingLog()[..n + 3] == BillingLog()[..n + 2] + [BillingLog()[n + 2]];
  }

  lemma StageAfter(w: World, a: seq<Action>, n: nat)
    requires n < 2 && Stage(Run(w, a), n)
    ensures Stage(Run(w, a + EmitAndSubmit(n + 1)), n + 1)
  {
    RunAppend(w, a, EmitAndSubmit(n + 1));
    StageNext(Run(w, a), n);
  }

  lemma StageRuns()
    ensures Stage(Run(Fresh(), Open(DEVICE) + EmitAndSubmit(1) + EmitAndSubmit(2)), 2)
  {
    StageOpen();
    StageAfter(Fresh(), Open(DEVICE), 0);
    StageAfter(Fresh(), Open(DEVICE) + EmitAndSubmit(1), 1);
  }

  lemma TwoReadingsRun()
    ensures TwoBilled(Run(Fresh(), TwoReadings()))
  {
    var a := Open(DEVICE) + EmitAndSubmit(1) + EmitAndSubmit(2);
    StageRuns();
    RunSnoc(Fresh(), a, CloseLedger(0));
    assert BillingLog()[..4] == BillingLog();
  }

  // ---- A poll that has cached the first of the two, and two visits between its awaits ----

  const STAMP: string := "2026-01-01T00:00:00.000Z"

  function RowNo(i: nat): Row
    requires i < 4 && BillingLog()[i].event.Metered?
  {
    RowOf(EventAt(BillingLog(), i), STAMP)
  }

  function WholePage(): Page {
    Page([EventAt(BillingLog(), 0), EventAt(BillingLog(), 1), EventAt(BillingLog(), 2), EventAt(BillingLog(), 3)],
         Some(4), 1)
  }

  lemma WholePageServed(w: World)
    requires TwoBilled(w)
    ensures GetEvents(ChainOf(w), FromLedger(1)) == WholePage()
  {
    UptoIs(BillingLog(), 0, 0);
    UptoIs(BillingLog(), 1, 4);
  }

  function Halfway(w: World): World {
    w.(cache := Cache([RowNo(2)], None), polls := w.polls[0 := Handling(1, 1, WholePage(), 3)])
  }

  lemma HalfwayReached(w: World)
    requires TwoBilled(w)
    ensures Run(w, PollFor(0, STAMP, 6)) == Halfway(w)
  {
    WholePageServed(w);
    var c, pg := w.cache, WholePage();
    var ps := [(Begin, c), (HaveStart(1), c), (Fetching(1, 0, None), c), (Handling(1, 0, pg, 0), c),
               (Handling(1, 1, pg, 1), c), (Handling(1, 1, pg, 2), c), (Handling(1, 1, pg, 3), Cache([RowNo(2)], None))];
    assert HandleEvent([], pg.events[2], STAMP) == [RowNo(2)];
    assert Follows(w, STAMP, ps, 3) && Follows(w, STAMP, ps, 4) && Follows(w, STAMP, ps, 5) && Follows(w, STAMP, ps, 6);
    PollReaches(w, 0, STAMP, ps, 6);
  }

  const EVERYTHING: Query := Query(DEVICE, "", "")

  /** Each route has its first query answered; then the poll ingests a row; then the second. */
  function Torn(): seq<Action> {
    [Visit(0, BalanceOf(DEVICE)), Visit(1, MetricsOf(EVERYTHING, Series.Day)), VisitAwait(0), VisitAwait(1),
     Await(0, STAMP), VisitAwait(0), VisitAwait(1)]
  }

  function TornViews(r1: seq<Row>, r2: seq<Row>): map<nat, Visit> {
    map[0 := BalanceAnswered(DEVICE, Balance(r1, r2, DEVICE)),
        1 := MetricsAnswered(EVERYTHING, Series.Day, Series.Aggregate(r2, EVERYTHING, Series.Day),
                             MetricsFor(r1, EVERYTHING))]
  }

  lemma FirstQueries(w: World)
    requires w.visits == map[]
    ensures Run(w, Torn()[..4])
            == w.(visits := map[0 := Sampled(BalanceOf(DEVICE), MetricsFor(w.cache.rows, EVERYTHING)),
                                1 := Sampled(MetricsOf(EVERYTHING, Series.Day), MetricsFor(w.cache.rows, EVERYTHING))])
  {
    var a := Torn();
    RunFour(w, a[..4]);
    var s := MetricsFor(w.cache.rows, EVERYTHING);
    var q0, q1 := BalanceOf(DEVICE), MetricsOf(EVERYTHING, Series.Day);
    assert w.visits[0 := Asked(q0)][1 := Asked(q1)][0 := Sampled(q0, s)][1 := Sampled(q1, s)]
        == map[0 := Sampled(q0, s), 1 := Sampled(q1, s)];
  }

  function BothRows(): seq<Row> {
    [RowNo(2), RowNo(3)]
  }

  function AfterTorn(w: World): World {
    w.(cache := Cache(BothRows(), None), polls := w.polls[0 := Handling(1, 1, WholePage(), 4)],
       visits := TornViews([RowNo(2)], BothRows()))
  }

  lemma SecondQueries(w: World, w4: World)
    requires TwoBilled(w) && w4 == Run(Halfway(w), Torn()[..4])
    ensures Step(Step(Step(w4, Torn()[4]), Torn()[5]), Torn()[6]) == AfterTorn(w)
  {
    FirstQueries(Halfway(w));
    assert HandleEvent([RowNo(2)], WholePage().events[3], STAMP) == BothRows();
    var w5 := Step(w4, Torn()[4]);
    assert w5.polls == AfterTorn(w).polls;
    assert w5 == w4.(cache := Cache(BothRows(), None), polls := w5.polls);
    assert w4.visits[0 := TornViews([RowNo(2)], BothRows())[0]][1 := TornViews([RowNo(2)], BothRows())[1]]
        == TornViews([RowNo(2)], BothRows());
  }

  lemma TornReached(w: World)
    requires TwoBilled(w)
    ensures Run(Halfway(w), Torn()) == AfterTorn(w)
  {
    var a, h := Torn(), Halfway(w);
    assert a[..5] == a[..4] + [a[4]] && a[..6] == a[..5] + [a[5]] && a == a[..6] + [a[6]];
    RunSnoc(h, a[..4], a[4]);
    RunSnoc(h, a[..5], a[5]);
    RunSnoc(h, a[..6], a[6]);
    SecondQueries(w, Run(h, a[..4]));
  }

  lemma TornRun() returns (start: World, actions: seq<Action>, w: World)
    ensures Genesis(start) && TwoBilled(w) && Run(start, actions) == AfterTorn(w)
  {
    start, actions, w := Fresh(), TwoReadings() + PollFor(0, STAMP, 6) + Torn(), Run(Fresh(), TwoReadings());
    FreshIsGenesis();
    TwoReadingsRun();
    RunOn(Fresh(), TwoReadings(), w, PollFor(0, STAMP, 6));
    HalfwayReached(w);
    RunOn(Fresh(), TwoReadings() + PollFor(0, STAMP, 6), Halfway(w), Torn());
    TornReached(w);
  }

  lemma OwnRows()
    ensures Own([RowNo(2)], DEVICE) == [RowNo(2)] && Own(BothRows(), DEVICE) == BothRows()
  {
    OwnExtend([], RowNo(2), DEVICE);
    OwnExtend([RowNo(2)], RowNo(3), DEVICE);
    assert [] + [RowNo(2)] == [RowNo(2)] && [RowNo(2)] + [RowNo(3)] == BothRows();
  }

  /** One run in which both routes answer with halves of different moments: the balance answer
      shows the second reading's number beside the first one's balance and totals, which the
      contract never did, and the series counts a row the samples beside it lack. */
  lemma TornAnswers() returns (start: World, actions: seq<Action>)
    ensures Genesis(start)
    ensures var w := Run(start, actions);
            && 0 in w.visits && w.visits[0].BalanceAnswered? && w.visits[0].device == DEVICE
            && var b := w.visits[0].view;
               && b.latestSeq == 2 && b.onChainBalance == Some(4) && b.totalUnits == 1 && b.totalBilled == 1
               && !WasOnChain(start, actions, b, DEVICE)
    ensures var w := Run(start, actions);
            && 1 in w.visits && w.visits[1].MetricsAnswered?
            && !Series.SeriesMatches(w.visits[1].series, w.visits[1].samples)
  {
    var w;
    start, actions, w := TornRun();
    var r1, r2 := [RowNo(2)], BothRows();
    OwnRows();
    TornBalance(r1, r2);
    EveryRunLog(start, actions);
    CacheIsPrefixAlways(start, actions);
    RowsServe(start, actions, DEVICE, r1, r2);
    TornSeries();
  }

  lemma TornSeries()
    ensures !Series.SeriesMatches(Series.Aggregate(BothRows(), EVERYTHING, Series.Day), MetricsFor([RowNo(2)], EVERYTHING))
  {
    assert BothRows() == [RowNo(2)] + [RowNo(3)];
    Series.MetricsRouteAgrees([RowNo(2)], [RowNo(3)], EVERYTHING, Series.Day);
    OwnExtend([], RowNo(3), DEVICE);
    assert [] + [RowNo(3)] == [RowNo(3)];
  }

  lemma TornBalance(r1: seq<Row>, r2: seq<Row>)
    requires r1 == [RowNo(2)] && r2 == BothRows() && Own(r1, DEVICE) == r1 && Own(r2, DEVICE) == r2
    ensures var b := Balance(r1, r2, DEVICE);
            b.latestSeq == 2 && b.onChainBalance == Some(4) && b.totalUnits == 1 && b.totalBilled == 1
  {
    BalanceOfOwn(r1, r2, DEVICE);
    assert Init(r1) == [];
  }

  // ---- Caught up, and still not the balance on chain ----

  function LateTopUp(): seq<Action> {
    [Open(DEVICE)[1], Visit(2, BalanceOf(DEVICE)), VisitAwait(2), VisitAwait(2)]
  }

  lemma LateTopUpSteps(w: World, w': World)
    requires TwoBilled(w) && w' == AfterTorn(w)
    ensures var e := Run(w', LateTopUp());
            && DEVICE in e.contract.deposits && Stands(e.contract, DEVICE, 8, 2) && e.cache == w'.cache
            && e.contract.log == w.contract.log + [Entry(2, Deposited(DEVICE, 5, 8))]
            && 2 in e.visits && e.visits[2] == BalanceAnswered(DEVICE, Balance(BothRows(), BothRows(), DEVICE))
  {
    var a := LateTopUp();
    RunFour(w', a);
    DepositStep(w', DEVICE, 3, 2, TWIN);
  }

  /** Every reading is cached and nothing is ingested between the queries; yet the route's
      on_chain_balance is 3 while the contract's getter says 8. */
  lemma ServedIsNotCurrent() returns (start: World, actions: seq<Action>)
    ensures Genesis(start)
    ensures var e := Run(start, actions);
            && |e.cache.rows| == |Meters(e.contract.log)|
            && DEVICE in e.contract.deposits && e.contract.deposits[DEVICE] == 8
            && 2 in e.visits && e.visits[2].BalanceAnswered? && e.visits[2].view.onChainBalance == Some(3)
  {
    var before, w;
    start, before, w := TornRun();
    actions := before + LateTopUp();
    RunOn(start, before, AfterTorn(w), LateTopUp());
    LateTopUpSteps(w, AfterTorn(w));
    CaughtUpView(w.contract.log + [Entry(2, Deposited(DEVICE, 5, 8))]);
  }

  lemma CaughtUpView(log: seq<Entry>)
    requires log == BillingLog() + [Entry(2, Deposited(DEVICE, 5, 8))]
    ensures Balance(BothRows(), BothRows(), DEVICE).onChainBalance == Some(3)
    ensures |BothRows()| == |Meters(log)|
  {
    OwnRows();
    BalanceOfOwn(BothRows(), BothRows(), DEVICE);
    TwoMeters(log);
  }

  lemma TwoMeters(log: seq<Entry>)
    requires log == BillingLog() + [Entry(2, Deposited(DEVICE, 5, 8))]
    ensures |Meters(log)| == 2
  {
    assert log[..0] == [] && log[..5] == log;
    MetersStep(log, 0);
    MetersStep(log, 1);
    MetersStep(log, 2);
    MetersStep(log, 3);
    MetersStep(log, 4);
  }
}
