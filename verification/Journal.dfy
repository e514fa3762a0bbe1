/** What the event log alone says: a second account of every ledger, written without
    looking at contract storage, and the proof that the two never differ. */
module Journal {
  import opened Prelude
  import opened Billing

  /** A device as its events tell it: lifetime totals, never a running balance. */
  datatype Account =
    | Unknown
    | Account(operator: Address, rate: int, toppedUp: int, billed: int, units: nat, readings: nat, lastTs: nat)

  function Post(a: Account, device: Address, event: Event): Account {
    match event
    case DeviceRegistered(d, operator, rate) =>
      if d == device then Account(operator, rate, 0, 0, 0, 0, 0) else a
    case Deposited(d, amount, _) =>
      if d == device && a.Account? then a.(toppedUp := a.toppedUp + amount) else a
    case Metered(d, units, cost, _, _, ts) =>
      if d == device && a.Account?
      then a.(billed := a.billed + cost, units := a.units + units, readings := a.readings + 1, lastTs := ts)
      else a
    case Settled(_, _) => a
  }

  function AccountOf(log: seq<Entry>, device: Address): Account {
    if log == [] then Unknown else Post(AccountOf(Init(log), device), device, Last(log).event)
  }

  /** Everything billed so far to devices registered with this operator. */
  function Earned(log: seq<Entry>, operator: Address): int {
    if log == [] then 0
    else
      Earned(Init(log), operator) +
      match Last(log).event
      case Metered(d, _, cost, _, _, _) =>
        var a := AccountOf(Init(log), d);
        if a.Account? && a.operator == operator then cost else 0
      case _ => 0
  }

  function PaidOut(log: seq<Entry>, operator: Address): int {
    if log == [] then 0
    else
      PaidOut(Init(log), operator) +
      match Last(log).event
      case Settled(o, amount) => if o == operator then amount else 0
      case _ => 0
  }

  /** The storage a getter reads agrees with the log about one device. */
  predicate DeviceAgrees(s: State, device: Address) {
    match AccountOf(s.log, device)
    case Unknown =>
      && device !in s.registrations && device !in s.tariffs
      && device !in s.deposits && device !in s.readings
    case Account(operator, rate, toppedUp, billed, units, readings, lastTs) =>
      && device in s.registrations && s.registrations[device].operator == operator
      && s.registrations[device].status == Active
      && device in s.tariffs && s.tariffs[device] == rate
      && device in s.deposits && s.deposits[device] == toppedUp - billed
      && Counter(s, device).lastSeq == readings
      && Counter(s, device).lastTs == lastTs
      && Counter(s, device).cumulativeUnits == units
      && (device in s.readings <==> readings > 0)
  }

  predicate OperatorAgrees(s: State, operator: Address) {
    && OperatorLedger(s, operator).totalEarned == Earned(s.log, operator)
    && OperatorLedger(s, operator).totalSettled == PaidOut(s.log, operator)
  }

  ghost predicate LogDetermines(s: State) {
    && (forall d: Address :: DeviceAgrees(s, d))
    && (forall o: Address :: OperatorAgrees(s, o))
  }

  /** One event says exactly what happened to the accounts before it. */
  predicate EntryTrue(before: seq<Entry>, event: Event) {
    match event
    case DeviceRegistered(d, _, rate) => AccountOf(before, d).Unknown? && 0 <= rate
    case Deposited(d, amount, newBalance) =>
      var a := AccountOf(before, d);
      a.Account? && 0 < amount && newBalance == a.toppedUp - a.billed + amount
    case Metered(d, units, cost, balanceAfter, seqNo, _) =>
      var a := AccountOf(before, d);
      && a.Account? && 0 < units && 0 <= a.rate && cost == units * a.rate
      && 0 <= balanceAfter == a.toppedUp - a.billed - cost
      && seqNo == a.readings + 1
    case Settled(o, amount) => 0 < amount <= Earned(before, o) - PaidOut(before, o)
  }

  ghost predicate LogTrue(log: seq<Entry>) {
    forall i :: 0 <= i < |log| ==> EntryTrue(log[..i], log[i].event)
  }

  lemma LogTruePrefix(log: seq<Entry>, n: nat)
    requires LogTrue(log) && n <= |log|
    ensures LogTrue(log[..n])
  {
    forall i | 0 <= i < n ensures EntryTrue(log[..n][..i], log[..n][i].event) {
      assert log[..n][..i] == log[..i];
    }
  }

  lemma LogTrueExtend(log: seq<Entry>, e: Entry)
    requires LogTrue(log) && EntryTrue(log, e.event)
    ensures LogTrue(log + [e])
  {
    forall i | 0 <= i < |log| + 1 ensures EntryTrue((log + [e])[..i], (log + [e])[i].event) {
      if i < |log| {
        assert (log + [e])[..i] == log[..i];
      } else {
        assert (log + [e])[..i] == log;
      }
    }
  }

  /** A transaction adds at most one event, and nothing else ever changes the log. */
  lemma InvokeLog(s: State, env: Env, call: Call)
    ensures var s' := Invoke(s, env, call);
            if Accepted(s, env, call)
            then && |s'.log| == |s.log| + 1
                 && s'.log == s.log + [s'.log[|s.log|]]
                 && s'.log[|s.log|].ledger == env.ledger
            else s' == s
  {
  }

  lemma PostedDevice(s: State, env: Env, call: Call, d: Address)
    requires Accepted(s, env, call) && DeviceAgrees(s, d)
    ensures DeviceAgrees(Invoke(s, env, call), d)
  {
    InvokeLog(s, env, call);
    var s' := Invoke(s, env, call);
    assert Init(s'.log) == s.log;
    match call {
      case Register(_, _, _, _) =>
      case Deposit(_, _) =>
      case Submit(_, _, _) =>
      case Settle(_, _) =>
    }
  }

  lemma PostedOperator(s: State, env: Env, call: Call, o: Address)
    requires Accepted(s, env, call) && OperatorAgrees(s, o)
    requires call.Submit? ==> DeviceAgrees(s, call.device)
    ensures OperatorAgrees(Invoke(s, env, call), o)
  {
    InvokeLog(s, env, call);
    var s' := Invoke(s, env, call);
    assert Init(s'.log) == s.log;
    match call {
      case Register(_, _, _, _) =>
      case Deposit(_, _) =>
      case Submit(_, _, _) =>
      case Settle(_, _) =>
    }
  }

  lemma PostedEntry(s: State, env: Env, call: Call)
    requires Accepted(s, env, call)
    requires !call.Settle? ==> DeviceAgrees(s, call.device)
    requires call.Settle? ==> OperatorAgrees(s, call.operator)
    ensures EntryTrue(s.log, Last(Invoke(s, env, call).log).event)
  {
    match call {
      case Register(_, _, _, _) =>
      case Deposit(_, _) =>
      case Submit(d, r, _) => CostNonNegative(r.delta, s.tariffs[d]);
      case Settle(_, _) =>
    }
  }

  /** Every transaction keeps storage and log in agreement, and the log true. */
  lemma InvokeKeepsLog(s: State, env: Env, call: Call)
    requires LogDetermines(s) && LogTrue(s.log)
    ensures LogDetermines(Invoke(s, env, call)) && LogTrue(Invoke(s, env, call).log)
  {
    if Accepted(s, env, call) {
      InvokeLog(s, env, call);
      var s' := Invoke(s, env, call);
      forall d: Address ensures DeviceAgrees(s', d) {
        assert DeviceAgrees(s, d);
        PostedDevice(s, env, call, d);
      }
      assert !call.Settle? ==> DeviceAgrees(s, call.device);
      assert call.Settle? ==> OperatorAgrees(s, call.operator);
      forall o: Address ensures OperatorAgrees(s', o) {
        assert OperatorAgrees(s, o);
        PostedOperator(s, env, call, o);
      }
      PostedEntry(s, env, call);
      LogTrueExtend(s.log, Last(s'.log));
    }
  }

  /** Two reachable ledgers with the same log are the same to every getter. */
  lemma SameLogSameLedgers(s1: State, s2: State, a: Address)
    requires LogDetermines(s1) && LogDetermines(s2) && s1.log == s2.log
    ensures Counter(s1, a) == Counter(s2, a) && OperatorLedger(s1, a) == OperatorLedger(s2, a)
    ensures a in s1.registrations <==> a in s2.registrations
    ensures a in s1.registrations ==>
              && s1.registrations[a].operator == s2.registrations[a].operator
              && a in s1.tariffs && a in s2.tariffs && s1.tariffs[a] == s2.tariffs[a]
              && a in s1.deposits && a in s2.deposits && s1.deposits[a] == s2.deposits[a]
  {
    assert DeviceAgrees(s1, a) && DeviceAgrees(s2, a);
    assert OperatorAgrees(s1, a) && OperatorAgrees(s2, a);
  }

  /** Operator and tariff never change once a device is registered, and its totals only rise,
      the units by at least one with every reading. */
  lemma {:induction false} RegistrationIsFinal(log: seq<Entry>, n: nat, device: Address)
    requires LogTrue(log) && n <= |log| && AccountOf(log[..n], device).Account?
    ensures var a, b := AccountOf(log[..n], device), AccountOf(log, device);
            && b.Account? && b.operator == a.operator && b.rate == a.rate
            && a.toppedUp <= b.toppedUp && a.billed <= b.billed
            && a.readings <= b.readings && a.units + (b.readings - a.readings) <= b.units
    decreases |log|
  {
    if n < |log| {
      LogTruePrefix(log, |log| - 1);
      assert log[..n] == Init(log)[..n];
      RegistrationIsFinal(Init(log), n, device);
      assert EntryTrue(log[..|log| - 1], log[|log| - 1].event);
      CostOfEntry(Init(log), Last(log).event);
    } else {
      assert log[..n] == log;
    }
  }

  lemma CostOfEntry(before: seq<Entry>, event: Event)
    requires EntryTrue(before, event)
    ensures event.Metered? ==> 0 <= event.cost
  {
    if event.Metered? {
      CostNonNegative(event.units, AccountOf(before, event.device).rate);
    }
  }
}
