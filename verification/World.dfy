/** Everything at once: devices that sign, a network that may deliver anything signed to the
    contract in any order any number of times, ledgers that close, an indexer whose polls
    overlap, fail and crash, and visitors of the API whose queries fall between all of that. A run is any list of actions; an action that is not possible when
    its turn comes does nothing. */
module World {
  import opened Prelude
  import opened Codec
  import opened Billing
  import opened Journal
  import opened Custody
  import opened Store
  import opened Indexer
  import opened Emulator
  import opened Api

  datatype World = World(
    contract: State,
    donated: nat,
    latest: nat,
    now: u64,
    devices: map<PubKey, Device>,
    signed: set<(PubKey, seq<byte>)>,
    cache: Cache,
    polls: map<nat, Poll>,
    visits: map<nat, Visit>)

  datatype Action =
    | Transaction(call: Call, auth: set<Address>)
    | TokenActivity(wallets: map<Address, int>)
    | CloseLedger(now: u64)
    | Emit(key: PubKey, ticks: int, ts: nat)
    | StartPoll(id: nat)
    | Await(id: nat, stamp: string)
    | PollFails(id: nat)
    | Visit(id: nat, question: Question)
    | VisitAwait(id: nat)
    | Crash

  function ChainOf(w: World): Chain {
    Chain(w.contract.log, w.latest)
  }

  /** Transactions go into the ledger that is still open. */
  function EnvOf(w: World, auth: set<Address>): Env {
    Env(w.latest + 1, w.now, auth, w.signed)
  }

  function DeviceOf(w: World, key: PubKey): Device {
    if key in w.devices then w.devices[key] else Device(0, [])
  }

  function Emitted(w: World, key: PubKey, ticks: int, ts: nat): World {
    var before := DeviceOf(w, key);
    var after := EmitStep(before, ticks, ts);
    w.(devices := w.devices[key := after],
       signed := if |after.emitted| > |before.emitted|
                 then w.signed + {(key, Message(key, Last(after.emitted)))} else w.signed)
  }

  function AwaitStep(w: World, id: nat, stamp: string): World
    requires id in w.polls
  {
    var p := w.polls[id];
    var page := if p.Fetching? then GetEvents(ChainOf(w), RequestOf(p)) else Page([], None, 0);
    var r := Next(p, w.cache, page, stamp);
    w.(cache := r.1, polls := if r.0.Finished? then w.polls - {id} else w.polls[id := r.0])
  }

  ghost function Step(w: World, a: Action): World {
    match a
    case Transaction(call, auth) => w.(contract := Invoke(w.contract, EnvOf(w, auth), call))
    case TokenActivity(wallets) =>
      if TokenMayMove(w.contract, wallets)
      then w.(contract := w.contract.(wallets := wallets),
              donated := w.donated + (Get(wallets, SELF) - Held(w.contract)))
      else w
    case CloseLedger(now) => if w.now <= now then w.(latest := w.latest + 1, now := now) else w
    case Emit(key, ticks, ts) => Emitted(w, key, ticks, ts)
    case StartPoll(id) => if id in w.polls then w else w.(polls := w.polls[id := Begin])
    case Await(id, stamp) => if id in w.polls then AwaitStep(w, id, stamp) else w
    case PollFails(id) => w.(polls := w.polls - {id})
    case Visit(id, question) => if id in w.visits then w else w.(visits := w.visits[id := Asked(question)])
    case VisitAwait(id) =>
      if id in w.visits then w.(visits := w.visits[id := Proceed(w.visits[id], w.cache.rows)]) else w
    case Crash => w.(polls := map[], visits := map[])
  }

  ghost function Run(w: World, actions: seq<Action>): World {
    if actions == [] then w else Step(Run(w, Init(actions)), Last(actions))
  }

  /** A fresh deployment: no ledger closed, nothing cached, and whatever the contract's address
      already held counts as a donation. */
  ghost predicate Genesis(w: World) {
    && w.contract.token.Some?
    && w.contract == Deployed(w.contract.token.value, w.contract.wallets)
    && NonNegative(w.contract.wallets) && Sum(w.contract.wallets) <= I128_MAX
    && w.donated == Held(w.contract)
    && w.latest == 0 && w.devices == map[] && w.signed == {}
    && w.cache == Cache([], None) && w.polls == map[] && w.visits == map[]
  }

  // ---- Runs ----

  lemma {:induction false} RunAppend(w: World, a: seq<Action>, b: seq<Action>)
    ensures Run(w, a + b) == Run(Run(w, a), b)
  {
    if b == [] {
      assert a + b == a;
    } else {
      assert Init(a + b) == a + Init(b);
      RunAppend(w, a, Init(b));
    }
  }

  lemma RunOn(w: World, a: seq<Action>, w': World, b: seq<Action>)
    requires Run(w, a) == w'
    ensures Run(w, a + b) == Run(w', b)
  {
    RunAppend(w, a, b);
  }

  lemma RunSnoc(w: World, front: seq<Action>, last: Action)
    ensures Run(w, front + [last]) == Step(Run(w, front), last)
  {
    assert Init(front + [last]) == front;
  }

  lemma RunTwo(w: World, a: seq<Action>)
    requires |a| == 2
    ensures Run(w, a) == Step(Step(w, a[0]), a[1])
  {
    assert a == [a[0]] + [a[1]] && [a[0]] == [] + [a[0]];
    RunSnoc(w, [], a[0]);
    RunSnoc(w, [a[0]], a[1]);
  }

  lemma RunThree(w: World, a: seq<Action>)
    requires |a| == 3
    ensures Run(w, a) == Step(Step(Step(w, a[0]), a[1]), a[2])
  {
    assert a == a[..2] + [a[2]];
    RunTwo(w, a[..2]);
    RunSnoc(w, a[..2], a[2]);
  }

  lemma RunFour(w: World, a: seq<Action>)
    requires |a| == 4
    ensures Run(w, a) == Step(Step(Step(Step(w, a[0]), a[1]), a[2]), a[3])
  {
    assert a == a[..3] + [a[3]];
    RunThree(w, a[..3]);
    RunSnoc(w, a[..3], a[3]);
  }

  /** Registrations, keys, operators and tariffs are for good; the log, the signatures and
      each device's emissions only grow, and no cached row is lost. */
  predicate Extends(w: World, w': World, d: Address, key: PubKey) {
    && (d in w.contract.registrations ==>
          d in w'.contract.registrations && w'.contract.registrations[d] == w.contract.registrations[d])
    && (d in w.contract.registrations && d in w.contract.tariffs ==>
          d in w'.contract.tariffs && w'.contract.tariffs[d] == w.contract.tariffs[d])
    && w.contract.log <= w'.contract.log
    && w.signed <= w'.signed
    && DeviceOf(w, key).emitted <= DeviceOf(w', key).emitted
    && w.cache.rows <= w'.cache.rows
  }

  lemma StepExtends(w: World, a: Action, d: Address, key: PubKey)
    ensures Extends(w, Step(w, a), d, key)
    ensures |Step(w, a).contract.log| <= |w.contract.log| + 1
  {
    match a {
      case Transaction(call, auth) => TransactionExtends(w, call, auth, d, key);
      case _ =>
    }
  }

  lemma TransactionExtends(w: World, call: Call, auth: set<Address>, d: Address, key: PubKey)
    ensures var w' := Step(w, Transaction(call, auth));
            Extends(w, w', d, key) && |w'.contract.log| <= |w.contract.log| + 1
  {
    InvokeLog(w.contract, EnvOf(w, auth), call);
  }

  lemma {:induction false} RunExtends(w: World, actions: seq<Action>, d: Address, key: PubKey)
    ensures Extends(w, Run(w, actions), d, key)
  {
    if actions != [] {
      RunExtends(w, Init(actions), d, key);
      StepExtends(Run(w, Init(actions)), Last(actions), d, key);
    }
  }

  function SomeKey(): PubKey {
    seq(32, _ => 0)
  }

  // ---- What every run keeps ----

  /** Only devices sign, and only what they emitted. */
  ghost predicate SignaturesOk(w: World) {
    forall k: PubKey, m: seq<byte> :: (k, m) in w.signed ==>
      exists i :: 0 <= i < |DeviceOf(w, k).emitted| && m == Message(k, DeviceOf(w, k).emitted[i])
  }

  ghost predicate DevicesOk(w: World) {
    forall k: PubKey :: Ordered(DeviceOf(w, k))
  }

  ghost predicate PollsOk(w: World) {
    forall id :: id in w.polls ==> PollOk(ChainOf(w), w.cache.rows, w.polls[id])
  }

  ghost predicate Invariant(w: World) {
    && Sound(w.contract, w.donated)
    && LogDetermines(w.contract) && LogTrue(w.contract.log)
    && ChainOk(ChainOf(w)) && CacheOk(ChainOf(w), w.cache) && PollsOk(w)
    && SignaturesOk(w) && DevicesOk(w)
  }

  lemma GenesisOk(w: World)
    requires Genesis(w)
    ensures Invariant(w)
  {
    assert Outstanding(w.contract.operators) == map[];
    forall d: Address ensures DeviceAgrees(w.contract, d) && OperatorAgrees(w.contract, d) {
    }
  }

  /** Growth of the chain, whatever caused it, keeps the indexer's side. */
  lemma ChainGrowth(w: World, w': World)
    requires Grows(ChainOf(w), ChainOf(w')) && w'.cache == w.cache && w'.polls == w.polls
    requires CacheOk(ChainOf(w), w.cache) && PollsOk(w)
    ensures CacheOk(ChainOf(w'), w'.cache) && PollsOk(w')
  {
    GrowthKeepsCache(ChainOf(w), ChainOf(w'), w.cache);
    forall id | id in w'.polls ensures PollOk(ChainOf(w'), w'.cache.rows, w'.polls[id]) {
      GrowthKeeps(ChainOf(w), ChainOf(w'), w.cache.rows, w.polls[id]);
    }
  }

  lemma TransactionGrows(w: World, call: Call, auth: set<Address>)
    requires ChainOk(ChainOf(w))
    ensures Grows(ChainOf(w), ChainOf(Step(w, Transaction(call, auth))))
  {
    InvokeLog(w.contract, EnvOf(w, auth), call);
  }

  lemma TransactionKeeps(w: World, call: Call, auth: set<Address>)
    requires Invariant(w)
    ensures Invariant(Step(w, Transaction(call, auth)))
  {
    var w' := Step(w, Transaction(call, auth));
    InvokeKeepsSound(w.contract, EnvOf(w, auth), call, w.donated);
    InvokeKeepsLog(w.contract, EnvOf(w, auth), call);
    TransactionGrows(w, call, auth);
    ChainGrowth(w, w');
    SameDevices(w, w');
  }

  lemma SameDevices(w: World, w': World)
    requires w'.devices == w.devices && w'.signed == w.signed && SignaturesOk(w) && DevicesOk(w)
    ensures SignaturesOk(w') && DevicesOk(w')
  {
    assert forall k: PubKey :: DeviceOf(w', k) == DeviceOf(w, k);
  }

  lemma TokenKeeps(w: World, wallets: map<Address, int>)
    requires Invariant(w)
    ensures Invariant(Step(w, TokenActivity(wallets)))
  {
    var w' := Step(w, TokenActivity(wallets));
    if TokenMayMove(w.contract, wallets) {
      forall d: Address ensures DeviceAgrees(w'.contract, d) && OperatorAgrees(w'.contract, d) {
        assert DeviceAgrees(w.contract, d) && OperatorAgrees(w.contract, d);
      }
      assert ChainOf(w') == ChainOf(w);
      SameDevices(w, w');
    }
  }

  lemma CloseKeeps(w: World, now: u64)
    requires Invariant(w)
    ensures Invariant(Step(w, CloseLedger(now)))
  {
    var w' := Step(w, CloseLedger(now));
    if w.now <= now {
      assert Grows(ChainOf(w), ChainOf(w'));
      ChainGrowth(w, w');
      SameDevices(w, w');
    }
  }

  lemma EmitKeeps(w: World, key: PubKey, ticks: int, ts: nat)
    requires SignaturesOk(w) && DevicesOk(w)
    ensures SignaturesOk(Emitted(w, key, ticks, ts)) && DevicesOk(Emitted(w, key, ticks, ts))
  {
    var w' := Emitted(w, key, ticks, ts);
    var before, after := DeviceOf(w, key), EmitStep(DeviceOf(w, key), ticks, ts);
    assert Ordered(before);
    EmitKeepsOrder(before, ticks, ts);
    forall k: PubKey, m: seq<byte> | (k, m) in w'.signed
      ensures exists i :: 0 <= i < |DeviceOf(w', k).emitted| && m == Message(k, DeviceOf(w', k).emitted[i])
    {
      if (k, m) in w.signed {
        var i :| 0 <= i < |DeviceOf(w, k).emitted| && m == Message(k, DeviceOf(w, k).emitted[i]);
        assert DeviceOf(w', k).emitted[i] == DeviceOf(w, k).emitted[i];
      } else {
        assert k == key && m == Message(k, DeviceOf(w', k).emitted[|after.emitted| - 1]);
      }
    }
    forall k: PubKey ensures Ordered(DeviceOf(w', k)) {
      assert Ordered(DeviceOf(w, k));
    }
  }

  lemma AwaitKeeps(w: World, id: nat, stamp: string)
    requires ChainOk(ChainOf(w)) && CacheOk(ChainOf(w), w.cache) && PollsOk(w) && id in w.polls
    ensures CacheOk(ChainOf(w), AwaitStep(w, id, stamp).cache) && PollsOk(AwaitStep(w, id, stamp))
    ensures w.cache.rows <= AwaitStep(w, id, stamp).cache.rows
  {
    var w' := AwaitStep(w, id, stamp);
    NextKeeps(ChainOf(w), w.cache, w.polls[id], stamp);
    assert ChainOf(w') == ChainOf(w);
    forall j | j in w'.polls ensures PollOk(ChainOf(w'), w'.cache.rows, w'.polls[j]) {
      if j != id {
        MoreRowsKeep(ChainOf(w), w.cache.rows, w'.cache.rows, w.polls[j]);
      }
    }
  }

  lemma StepKeeps(w: World, a: Action)
    requires Invariant(w)
    ensures Invariant(Step(w, a))
  {
    match a {
      case Transaction(call, auth) => TransactionKeeps(w, call, auth);
      case TokenActivity(wallets) => TokenKeeps(w, wallets);
      case CloseLedger(now) => CloseKeeps(w, now);
      case Emit(key, ticks, ts) => EmitKeeps(w, key, ticks, ts);
      case StartPoll(_) => SameDevices(w, Step(w, a));
      case Await(id, stamp) =>
        if id in w.polls {
          AwaitKeeps(w, id, stamp);
        }
        SameDevices(w, Step(w, a));
      case PollFails(_) => SameDevices(w, Step(w, a));
      case Visit(_, _) => SameDevices(w, Step(w, a));
      case VisitAwait(_) => SameDevices(w, Step(w, a));
      case Crash => SameDevices(w, Step(w, a));
    }
  }

  /** In every state of every run: the token is conserved, the event log alone determines
      every ledger, the cached rows are exactly the first billing events of the contract, the
      persisted watermark is safe, and so is what every poll in flight relies on. */
  lemma {:induction false} EveryRun(w: World, actions: seq<Action>)
    requires Genesis(w)
    ensures Invariant(Run(w, actions))
  {
    if actions == [] {
      GenesisOk(w);
    } else {
      EveryRun(w, Init(actions));
      StepKeeps(Run(w, Init(actions)), Last(actions));
    }
  }

  lemma {:induction false} EveryRunLog(w: World, actions: seq<Action>)
    requires Genesis(w)
    ensures LogDetermines(Run(w, actions).contract) && LogTrue(Run(w, actions).contract.log)
  {
    EveryRun(w, actions);
  }

  lemma EveryRunDevices(w: World, actions: seq<Action>)
    requires Genesis(w)
    ensures SignaturesOk(Run(w, actions)) && DevicesOk(Run(w, actions))
  {
    EveryRun(w, actions);
  }

  /** Mid-page, after an exception, after a crash, with any number of overlapping polls: the
      cached rows are the first billing events in chain order, without gap or duplicate, and
      every billing event up to the persisted watermark is among them. */
  lemma CacheIsPrefixAlways(w: World, actions: seq<Action>)
    requires Genesis(w)
    ensures RowsArePrefix(Run(w, actions).contract.log, Run(w, actions).cache.rows)
    ensures Safe(ChainOf(Run(w, actions)), Run(w, actions).cache.rows, LastLedger(Run(w, actions).cache))
  {
    EveryRun(w, actions);
  }

  /** The token is conserved in every state of every run. */
  lemma CustodyAlways(w: World, actions: seq<Action>)
    requires Genesis(w)
    ensures var s := Run(w, actions).contract;
            Held(s) == Sum(s.deposits) + Sum(Outstanding(s.operators)) + Run(w, actions).donated
  {
    EveryRun(w, actions);
  }
}
