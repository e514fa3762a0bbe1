/** The on-chain ledgers and, for each entrypoint, exactly when it succeeds, what the
    committed ledgers are, and which refusal it gives otherwise. A refused invocation
    leaves no trace: the host rolls the transaction back. */
module Billing {
  import opened Prelude
  import opened Codec

  datatype Address = Address(id: nat)

  /** The contract's own address. Nothing invokes an entrypoint with its authority. */
  const SELF: Address := Address(0)

  datatype Error =
    | NotRegistered | AlreadyRegistered | InvalidRate | InvalidAmount | InsufficientBalance
    | ZeroReading | Overflow | InvalidSequence | InsufficientEarnings
    | DeviceNotActive | NotInitialized

  /** Trap is a host abort: missing authority, a failed token transfer, a bad signature. */
  datatype Outcome<+T> = Ok(value: T) | Err(error: Error) | Trap

  datatype DeviceStatus = Active | Suspended | Retired
  datatype Registration = Registration(operator: Address, status: DeviceStatus, registeredAt: u64, pubkey: PubKey)
  datatype ReadingCounter = ReadingCounter(lastSeq: u64, lastTs: u64, cumulativeUnits: u64)
  datatype OperatorBalance = OperatorBalance(totalEarned: i128, totalSettled: i128)

  datatype Event =
    | DeviceRegistered(device: Address, operator: Address, rate: i128)
    | Deposited(device: Address, amount: i128, newBalance: i128)
    | Metered(device: Address, units: u64, cost: i128, balanceAfter: i128, seqNo: u64, ledgerTs: u64)
    | Settled(operator: Address, amount: i128)

  /** An event together with the ledger that holds it. */
  datatype Entry = Entry(ledger: nat, event: Event)

  /** wallets are the billing token's balances; the contract's custody is wallets[SELF]. */
  datatype State = State(
    token: Option<Address>,
    registrations: map<Address, Registration>,
    tariffs: map<Address, i128>,
    deposits: map<Address, i128>,
    readings: map<Address, ReadingCounter>,
    operators: map<Address, OperatorBalance>,
    wallets: map<Address, int>,
    log: seq<Entry>)

  /** An ideal signature names its signer and the bytes signed. */
  datatype Signature = Signature(signer: PubKey, message: seq<byte>)

  /** The ledger being built, whose authority the transaction carries, and every
      (key, bytes) pair signed so far. */
  datatype Env = Env(ledger: nat, now: u64, auth: set<Address>, signed: set<(PubKey, seq<byte>)>)

  datatype Call =
    | Register(device: Address, pubkey: PubKey, operator: Address, rate: i128)
    | Deposit(device: Address, amount: i128)
    | Submit(device: Address, reading: Reading, sig: Signature)
    | Settle(operator: Address, amount: i128)

  predicate Authorized(env: Env, a: Address) {
    a in env.auth && a != SELF
  }

  function Counter(s: State, device: Address): ReadingCounter {
    if device in s.readings then s.readings[device] else ReadingCounter(0, 0, 0)
  }

  function OperatorLedger(s: State, operator: Address): OperatorBalance {
    if operator in s.operators then s.operators[operator] else OperatorBalance(0, 0)
  }

  function Publish(s: State, env: Env, event: Event): seq<Entry> {
    s.log + [Entry(env.ledger, event)]
  }

  // ---- The SEP-41 token ----

  predicate Transferable(wallets: map<Address, int>, from: Address, to: Address, amount: int) {
    amount <= Get(wallets, from) && Get(wallets, to) + amount <= I128_MAX
  }

  function Transfer(wallets: map<Address, int>, from: Address, to: Address, amount: int): map<Address, int> {
    wallets[from := Get(wallets, from) - amount][to := Get(wallets, to) + amount]
  }

  // ---- register_device ----

  predicate Registrable(s: State, env: Env, device: Address, operator: Address, rate: i128) {
    Authorized(env, device) && Authorized(env, operator) && 0 <= rate && device !in s.registrations
  }

  function Registered(s: State, env: Env, device: Address, pubkey: PubKey, operator: Address, rate: i128): State {
    s.(registrations := s.registrations[device := Registration(operator, Active, env.now, pubkey)],
       tariffs := s.tariffs[device := rate],
       deposits := s.deposits[device := 0],
       log := Publish(s, env, DeviceRegistered(device, operator, rate)))
  }

  function RegisterRefusal(s: State, env: Env, device: Address, operator: Address, rate: i128): Outcome<bool> {
    if !Authorized(env, device) || !Authorized(env, operator) then Trap
    else if rate < 0 then Err(InvalidRate)
    else Err(AlreadyRegistered)
  }

  // ---- deposit_funds ----

  predicate Depositable(s: State, env: Env, device: Address, amount: i128) {
    && Authorized(env, device)
    && device in s.registrations
    && 0 < amount
    && Get(s.deposits, device) + amount <= I128_MAX
    && s.token.Some?
    && Transferable(s.wallets, device, SELF, amount)
  }

  function Funded(s: State, env: Env, device: Address, amount: i128): State
    requires Depositable(s, env, device, amount)
  {
    var balance := Get(s.deposits, device) + amount;
    s.(deposits := s.deposits[device := balance],
       wallets := Transfer(s.wallets, device, SELF, amount),
       log := Publish(s, env, Deposited(device, amount, balance)))
  }

  function DepositRefusal(s: State, env: Env, device: Address, amount: i128): Outcome<bool> {
    if !Authorized(env, device) then Trap
    else if device !in s.registrations then Err(NotRegistered)
    else if amount <= 0 then Err(InvalidAmount)
    else if Get(s.deposits, device) + amount > I128_MAX then Err(Overflow)
    else if s.token.None? then Err(NotInitialized)
    else Trap
  }

  // ---- submit_reading ----

  /** The signature belongs to this very reading under the registered key. */
  predicate Genuine(env: Env, key: PubKey, r: Reading, sig: Signature) {
    sig == Signature(key, Message(key, r)) && (key, Message(key, r)) in env.signed
  }

  /** The reading is next in sequence, genuine and priced; only money may be missing. */
  predicate Presentable(s: State, env: Env, device: Address, r: Reading, sig: Signature) {
    && device in s.registrations
    && s.registrations[device].status == Active
    && device in s.tariffs && 0 <= s.tariffs[device]
    && device in s.deposits
    && 0 < r.delta
    && r.seqNo == Counter(s, device).lastSeq + 1
    && Genuine(env, s.registrations[device].pubkey, r, sig)
  }

  function Cost(s: State, device: Address, r: Reading): int
    requires device in s.tariffs
  {
    r.delta * s.tariffs[device]
  }

  /** The credit and the unit counter still fit their machine integers. */
  predicate Fits(s: State, device: Address, r: Reading)
    requires device in s.registrations && device in s.tariffs
  {
    && OperatorLedger(s, s.registrations[device].operator).totalEarned + Cost(s, device, r) <= I128_MAX
    && Counter(s, device).cumulativeUnits + r.delta <= U64_MAX
  }

  predicate Billable(s: State, env: Env, device: Address, r: Reading, sig: Signature) {
    && Presentable(s, env, device, r, sig)
    && Cost(s, device, r) <= s.deposits[device]
    && Fits(s, device, r)
  }

  function Billed(s: State, env: Env, device: Address, r: Reading, sig: Signature): State
    requires Billable(s, env, device, r, sig)
  {
    var operator := s.registrations[device].operator;
    var cost := Cost(s, device, r);
    CostNonNegative(r.delta, s.tariffs[device]);
    var balance: i128 := s.deposits[device] - cost;
    var earned := OperatorLedger(s, operator);
    s.(deposits := s.deposits[device := balance],
       operators := s.operators[operator := earned.(totalEarned := earned.totalEarned + cost)],
       readings := s.readings[device :=
         ReadingCounter(r.seqNo, env.now, Counter(s, device).cumulativeUnits + r.delta)],
       log := Publish(s, env, Metered(device, r.delta, cost, balance, r.seqNo, env.now)))
  }

  lemma CostNonNegative(delta: int, rate: int)
    requires 0 <= delta && 0 <= rate
    ensures 0 <= delta * rate
  {
  }

  function SubmitRefusal(s: State, env: Env, device: Address, r: Reading, sig: Signature): Outcome<i128> {
    if device !in s.registrations then Err(NotRegistered)
    else if s.registrations[device].status != Active then Err(DeviceNotActive)
    else if r.delta == 0 then Err(ZeroReading)
    else if Counter(s, device).lastSeq == U64_MAX then Err(Overflow)
    else if r.seqNo != Counter(s, device).lastSeq + 1 then Err(InvalidSequence)
    else if !Genuine(env, s.registrations[device].pubkey, r, sig) then Trap
    else if device !in s.tariffs then Err(NotRegistered)
    else if s.tariffs[device] < 0 then Err(InvalidRate)
    else if Cost(s, device, r) > I128_MAX then Err(Overflow)
    else if device !in s.deposits then Err(NotRegistered)
    else if Cost(s, device, r) > s.deposits[device] then Err(InsufficientBalance)
    else Err(Overflow)
  }

  // ---- settle_balance ----

  function Withdrawable(s: State, operator: Address): int {
    OperatorLedger(s, operator).totalEarned - OperatorLedger(s, operator).totalSettled
  }

  /** What i128::saturating_sub leaves of the withdrawable amount. */
  function Saturated(n: int): i128 {
    if n > I128_MAX then I128_MAX else if n < -I128_MAX - 1 then -I128_MAX - 1 else n
  }

  predicate Settleable(s: State, env: Env, operator: Address, amount: i128) {
    && Authorized(env, operator)
    && 0 < amount <= Saturated(Withdrawable(s, operator))
    && s.token.Some?
    && Transferable(s.wallets, SELF, operator, amount)
    && OperatorLedger(s, operator).totalSettled + amount <= I128_MAX
  }

  function Paid(s: State, env: Env, operator: Address, amount: i128): State
    requires Settleable(s, env, operator, amount)
  {
    var bal := OperatorLedger(s, operator);
    s.(operators := s.operators[operator := bal.(totalSettled := bal.totalSettled + amount)],
       wallets := Transfer(s.wallets, SELF, operator, amount),
       log := Publish(s, env, Settled(operator, amount)))
  }

  function SettleRefusal(s: State, env: Env, operator: Address, amount: i128): Outcome<bool> {
    if !Authorized(env, operator) then Trap
    else if amount <= 0 then Err(InvalidAmount)
    else if amount > Saturated(Withdrawable(s, operator)) then Err(InsufficientEarnings)
    else if s.token.None? then Err(NotInitialized)
    else if !Transferable(s.wallets, SELF, operator, amount) then Trap
    else Err(Overflow)
  }

  // ---- Any invocation ----

  predicate Accepted(s: State, env: Env, call: Call) {
    match call
    case Register(device, _, operator, rate) => Registrable(s, env, device, operator, rate)
    case Deposit(device, amount) => Depositable(s, env, device, amount)
    case Submit(device, r, sig) => Billable(s, env, device, r, sig)
    case Settle(operator, amount) => Settleable(s, env, operator, amount)
  }

  /** The ledgers after one transaction, refused ones included. */
  function Invoke(s: State, env: Env, call: Call): State {
    if !Accepted(s, env, call) then s
    else
      match call
      case Register(device, pubkey, operator, rate) => Registered(s, env, device, pubkey, operator, rate)
      case Deposit(device, amount) => Funded(s, env, device, amount)
      case Submit(device, r, sig) => Billed(s, env, device, r, sig)
      case Settle(operator, amount) => Paid(s, env, operator, amount)
  }

  /** The state a deployment starts from: a token is configured and wallets hold it. */
  function Deployed(token: Address, wallets: map<Address, int>): State {
    State(Some(token), map[], map[], map[], map[], map[], wallets, [])
  }
}
