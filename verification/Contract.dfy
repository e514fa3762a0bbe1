/** contracts/src/lib.rs in its own form: entrypoints that read records, update them and
    write them back one after the other, and may still fail after the first write. */
module Contract {
  import opened Prelude
  import opened Codec
  import opened Billing

  class IotBillingContract {
    var token: Option<Address>
    var registrations: map<Address, Registration>
    var tariffs: map<Address, i128>
    var deposits: map<Address, i128>
    var readings: map<Address, ReadingCounter>
    var operators: map<Address, OperatorBalance>
    var wallets: map<Address, int>
    var log: seq<Entry>

    function Snapshot(): State
      reads this
    {
      State(token, registrations, tariffs, deposits, readings, operators, wallets, log)
    }

    constructor (billingToken: Address, holders: map<Address, int>)
      ensures Snapshot() == Deployed(billingToken, holders)
    {
      token := Some(billingToken);
      registrations, tariffs, deposits, readings, operators := map[], map[], map[], map[], map[];
      wallets := holders;
      log := [];
    }

    method Restore(s: State)
      modifies this
      ensures Snapshot() == s
    {
      token, registrations, tariffs, deposits := s.token, s.registrations, s.tariffs, s.deposits;
      readings, operators, wallets, log := s.readings, s.operators, s.wallets, s.log;
    }

    method TokenTransfer(from: Address, to: Address, amount: i128) returns (ok: bool)
      modifies this`wallets
      ensures ok <==> Transferable(old(wallets), from, to, amount)
      ensures wallets == if ok then Transfer(old(wallets), from, to, amount) else old(wallets)
    {
      ok := amount <= Get(wallets, from) && Get(wallets, to) + amount <= I128_MAX;
      if ok {
        var source, target := Get(wallets, from), Get(wallets, to);
        wallets := wallets[from := source - amount];
        wallets := wallets[to := target + amount];
      }
    }

    method RegisterDevice(env: Env, device: Address, pubkey: PubKey, operator: Address, rate: i128)
      returns (r: Outcome<bool>)
      modifies this
      ensures r.Ok? <==> Registrable(old(Snapshot()), env, device, operator, rate)
      ensures r.Ok? ==> r.value && Snapshot() == Registered(old(Snapshot()), env, device, pubkey, operator, rate)
      ensures !r.Ok? ==> r == RegisterRefusal(old(Snapshot()), env, device, operator, rate)
    {
      if !Authorized(env, device) { return Trap; }
      if !Authorized(env, operator) { return Trap; }
      if rate < 0 { return Err(InvalidRate); }
      if device in registrations { return Err(AlreadyRegistered); }
      registrations := registrations[device := Registration(operator, Active, env.now, pubkey)];
      tariffs := tariffs[device := rate];
      deposits := deposits[device := 0];
      log := log + [Entry(env.ledger, DeviceRegistered(device, operator, rate))];
      return Ok(true);
    }

    method DepositFunds(env: Env, device: Address, amount: i128) returns (r: Outcome<bool>)
      modifies this
      ensures r.Ok? <==> Depositable(old(Snapshot()), env, device, amount)
      ensures r.Ok? ==> r.value && Snapshot() == Funded(old(Snapshot()), env, device, amount)
      ensures !r.Ok? ==> r == DepositRefusal(old(Snapshot()), env, device, amount)
    {
      if !Authorized(env, device) { return Trap; }
      if device !in registrations { return Err(NotRegistered); }
      if amount <= 0 { return Err(InvalidAmount); }
      var balance := if device in deposits then deposits[device] else 0;
      if balance + amount > I128_MAX { return Err(Overflow); }
      var newBalance: i128 := balance + amount;
      if token.None? { return Err(NotInitialized); }
      var moved := TokenTransfer(device, SELF, amount);
      if !moved { return Trap; }
      deposits := deposits[device := newBalance];
      log := log + [Entry(env.ledger, Deposited(device, amount, newBalance))];
      return Ok(true);
    }

    /** Rebuilds the signed bytes and hands them to the host's signature check. */
    method VerifySignature(env: Env, key: PubKey, seqNo: u64, delta: u64, timestamp: u64, sig: Signature)
      returns (ok: bool)
      ensures ok <==> Genuine(env, key, Reading(seqNo, delta, timestamp), sig)
    {
      var msg := ContractMessage(key, seqNo, delta, timestamp);
      ok := sig == Signature(key, msg) && (key, msg) in env.signed;
    }

    /** The checks submit_reading makes before it touches a ledger, and the price. */
    method PriceReading(env: Env, device: Address, delta: u64, dataSeq: u64, timestamp: u64, sig: Signature)
      returns (r: Outcome<i128>)
      ensures var reading := Reading(dataSeq, delta, timestamp);
              if r.Ok? then
                && Presentable(Snapshot(), env, device, reading, sig)
                && r.value == Cost(Snapshot(), device, reading)
                && r.value <= deposits[device]
              else
                && !Billable(Snapshot(), env, device, reading, sig)
                && r == SubmitRefusal(Snapshot(), env, device, reading, sig)
    {
      if device !in registrations { return Err(NotRegistered); }
      var reg := registrations[device];
      if reg.status != Active { return Err(DeviceNotActive); }
      if delta == 0 { return Err(ZeroReading); }
      var rdg := if device in readings then readings[device] else ReadingCounter(0, 0, 0);
      if rdg.lastSeq == U64_MAX { return Err(Overflow); }
      var expectedSeq := rdg.lastSeq + 1;
      if dataSeq != expectedSeq { return Err(InvalidSequence); }
      var genuine := VerifySignature(env, reg.pubkey, dataSeq, delta, timestamp, sig);
      if !genuine { return Trap; }
      if device !in tariffs { return Err(NotRegistered); }
      var rate := tariffs[device];
      if rate < 0 { return Err(InvalidRate); }
      CostNonNegative(delta, rate);
      if delta * rate > I128_MAX { return Err(Overflow); }
      var totalCost: i128 := delta * rate;
      if device !in deposits { return Err(NotRegistered); }
      if totalCost > deposits[device] { return Err(InsufficientBalance); }
      return Ok(totalCost);
    }

    /** The raw entrypoint. When it fails, the deposit and the operator's ledger may
        already hold the new values: only an overflow found after the balance check
        leaves such writes behind, and nothing else is ever touched. */
    method SubmitReading(env: Env, device: Address, delta: u64, dataSeq: u64, timestamp: u64, sig: Signature)
      returns (r: Outcome<i128>)
      modifies this
      ensures var reading := Reading(dataSeq, delta, timestamp);
              r.Ok? <==> Billable(old(Snapshot()), env, device, reading, sig)
      ensures var reading := Reading(dataSeq, delta, timestamp);
              r.Ok? ==> && r.value == Cost(old(Snapshot()), device, reading)
                        && Snapshot() == Billed(old(Snapshot()), env, device, reading, sig)
      ensures !r.Ok? ==> r == SubmitRefusal(old(Snapshot()), env, device, Reading(dataSeq, delta, timestamp), sig)
      ensures !r.Ok? ==> unchanged(`token, `registrations, `tariffs, `readings, `wallets, `log)
      ensures var reading := Reading(dataSeq, delta, timestamp); var s := old(Snapshot());
              !r.Ok? && (deposits != s.deposits || operators != s.operators) ==>
                && Presentable(s, env, device, reading, sig)
                && Cost(s, device, reading) <= s.deposits[device]
                && !Fits(s, device, reading)
                && deposits == s.deposits[device := s.deposits[device] - Cost(s, device, reading)]
    {
      r := PriceReading(env, device, delta, dataSeq, timestamp, sig);
      if !r.Ok? { return; }
      var totalCost, reg := r.value, registrations[device];
      CostNonNegative(delta, tariffs[device]);
      var balance: i128 := deposits[device] - totalCost;
      deposits := deposits[device := balance];
      var opBal := if reg.operator in operators then operators[reg.operator] else OperatorBalance(0, 0);
      if opBal.totalEarned + totalCost > I128_MAX { return Err(Overflow); }
      opBal := opBal.(totalEarned := opBal.totalEarned + totalCost);
      operators := operators[reg.operator := opBal];
      var rdg := if device in readings then readings[device] else ReadingCounter(0, 0, 0);
      rdg := rdg.(lastSeq := dataSeq, lastTs := env.now);
      if rdg.cumulativeUnits + delta > U64_MAX { return Err(Overflow); }
      rdg := rdg.(cumulativeUnits := rdg.cumulativeUnits + delta);
      readings := readings[device := rdg];
      log := log + [Entry(env.ledger, Metered(device, delta, totalCost, balance, dataSeq, env.now))];
      return Ok(totalCost);
    }

    method SettleBalance(env: Env, operator: Address, amount: i128) returns (r: Outcome<bool>)
      modifies this
      ensures r.Ok? <==> Settleable(old(Snapshot()), env, operator, amount)
      ensures r.Ok? ==> r.value && Snapshot() == Paid(old(Snapshot()), env, operator, amount)
      ensures !r.Ok? ==> r == SettleRefusal(old(Snapshot()), env, operator, amount)
    {
      if !Authorized(env, operator) { return Trap; }
      if amount <= 0 { return Err(InvalidAmount); }
      var bal := if operator in operators then operators[operator] else OperatorBalance(0, 0);
      var withdrawable := Saturated(bal.totalEarned - bal.totalSettled);
      if amount > withdrawable { return Err(InsufficientEarnings); }
      if token.None? { return Err(NotInitialized); }
      var moved := TokenTransfer(SELF, operator, amount);
      if !moved { return Trap; }
      if bal.totalSettled + amount > I128_MAX { return Err(Overflow); }
      bal := bal.(totalSettled := bal.totalSettled + amount);
      operators := operators[operator := bal];
      log := log + [Entry(env.ledger, Settled(operator, amount))];
      return Ok(true);
    }

    /** One transaction: run the entrypoint and, unless it returns Ok, undo every write. */
    method Transact(env: Env, call: Call) returns (accepted: bool)
      modifies this
      ensures accepted <==> Accepted(old(Snapshot()), env, call)
      ensures Snapshot() == Invoke(old(Snapshot()), env, call)
    {
      var before := Snapshot();
      match call {
        case Register(device, pubkey, operator, rate) =>
          var r := RegisterDevice(env, device, pubkey, operator, rate);
          accepted := r.Ok?;
        case Deposit(device, amount) =>
          var r := DepositFunds(env, device, amount);
          accepted := r.Ok?;
        case Submit(device, reading, sig) =>
          var r := SubmitReading(env, device, reading.delta, reading.seqNo, reading.timestamp, sig);
          accepted := r.Ok?;
        case Settle(operator, amount) =>
          var r := SettleBalance(env, operator, amount);
          accepted := r.Ok?;
      }
      if !accepted {
        Restore(before);
      }
    }
  }
}
