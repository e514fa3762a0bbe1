/** What calls do to whom, said with the records, the token balances and the authorities alone:
    who must agree, where the tokens go, and which error answers which failed condition. */
module Effects {
  import opened Prelude
  import opened Codec
  import opened Billing
  import opened Custody

  // ---- Who must agree ----

  /** Whatever is called: an account is debited, a device registered or topped up and an operator
      paid only with their own authority; a deposit falls only for a reading that the key given
      at registration has signed; and registrations and tariffs stay. */
  lemma AuthorityNeeded(s: State, env: Env, call: Call, a: Address)
    requires WellKept(s)
    ensures var s' := Invoke(s, env, call);
            && (a != SELF && Get(s'.wallets, a) < Get(s.wallets, a) ==> a in env.auth)
            && (a in s'.registrations && a !in s.registrations ==>
                  a in env.auth && s'.registrations[a].operator in env.auth)
            && (a in s.registrations ==> a in s'.registrations && s'.registrations[a] == s.registrations[a])
            && (a in s.tariffs ==> a in s'.tariffs && s'.tariffs[a] == s.tariffs[a])
            && (Get(s'.deposits, a) > Get(s.deposits, a) ==> a in env.auth)
            && (OperatorLedger(s', a).totalSettled != OperatorLedger(s, a).totalSettled ==> a in env.auth)
            && (Get(s'.deposits, a) < Get(s.deposits, a) ==>
                  a in s.registrations &&
                  exists r: Reading :: (s.registrations[a].pubkey, Message(s.registrations[a].pubkey, r)) in env.signed
                                       && Counter(s', a).lastSeq == r.seqNo == Counter(s, a).lastSeq + 1)
  {
    if Accepted(s, env, call) {
      assert s.registrations.Keys == s.tariffs.Keys == s.deposits.Keys;
      match call {
        case Register(d, _, _, _) => assert d !in s.registrations.Keys;
        case Deposit(_, _) =>
        case Submit(d, r, _) => CostNonNegative(r.delta, s.tariffs[d]);
        case Settle(_, _) =>
      }
    }
  }

  // ---- Where the tokens go ----

  /** No call makes or destroys tokens. */
  lemma SupplyStays(s: State, env: Env, call: Call)
    requires WellKept(s)
    ensures Sum(Invoke(s, env, call).wallets) == Sum(s.wallets)
  {
    if Accepted(s, env, call) {
      match call {
        case Register(_, _, _, _) =>
        case Deposit(d, amount) => TransferKeepsSupply(s.wallets, d, SELF, amount);
        case Submit(_, _, _) =>
        case Settle(o, amount) => TransferKeepsSupply(s.wallets, SELF, o, amount);
      }
    }
  }

  /** Tokens moved from one account to another: nobody else's balance is touched. */
  predicate Moved(before: map<Address, int>, after: map<Address, int>, from: Address, to: Address, amount: int, a: Address) {
    Get(after, a) == Get(before, a) + (if a == to then amount else 0) - (if a == from then amount else 0)
  }

  /** An accepted deposit takes exactly the amount from the device's own account into custody and
      onto the device's deposit. */
  lemma DepositMoves(s: State, env: Env, d: Address, amount: i128, a: Address)
    requires Accepted(s, env, Deposit(d, amount))
    ensures var s' := Invoke(s, env, Deposit(d, amount));
            && d != SELF && Moved(s.wallets, s'.wallets, d, SELF, amount, a)
            && Get(s'.deposits, a) == Get(s.deposits, a) + (if a == d then amount else 0)
            && s'.operators == s.operators && s'.readings == s.readings
            && s'.log == s.log + [Entry(env.ledger, Deposited(d, amount, Get(s'.deposits, d)))]
  {
  }

  /** An accepted settlement pays exactly the amount from custody to the operator's own account and
      writes it down as settled; no deposit is touched. */
  lemma SettlementPays(s: State, env: Env, o: Address, amount: i128, a: Address)
    requires Accepted(s, env, Settle(o, amount))
    ensures var s' := Invoke(s, env, Settle(o, amount));
            && o != SELF && Moved(s.wallets, s'.wallets, SELF, o, amount, a)
            && OperatorLedger(s', a).totalSettled == OperatorLedger(s, a).totalSettled + (if a == o then amount else 0)
            && OperatorLedger(s', a).totalEarned == OperatorLedger(s, a).totalEarned
            && s'.deposits == s.deposits && s'.readings == s.readings
            && s'.log == s.log + [Entry(env.ledger, Settled(o, amount))]
  {
  }

  /** An accepted registration records this operator, key, rate and time, with nothing deposited. */
  lemma RegistrationRecords(s: State, env: Env, d: Address, key: PubKey, o: Address, rate: i128, a: Address)
    requires Accepted(s, env, Register(d, key, o, rate))
    ensures var s' := Invoke(s, env, Register(d, key, o, rate));
            && d in s'.registrations && d in s'.tariffs && d in s'.deposits
            && s'.registrations[d].operator == o && s'.registrations[d].pubkey == key
            && s'.registrations[d].registeredAt == env.now && s'.registrations[d].status == Active
            && s'.tariffs[d] == rate && s'.deposits[d] == 0
            && s'.wallets == s.wallets && s'.operators == s.operators && s'.readings == s.readings
            && (a != d ==> (a in s'.registrations <==> a in s.registrations) && Get(s'.deposits, a) == Get(s.deposits, a))
  {
  }

  /** An accepted reading moves its cost from the device's deposit to the earnings of the operator
      named at registration, counts its units and number, and stamps both with the ledger's time;
      no token changes hands. */
  lemma ReadingMoves(s: State, env: Env, d: Address, r: Reading, sig: Signature, a: Address)
    requires Accepted(s, env, Submit(d, r, sig))
    ensures var s' := Invoke(s, env, Submit(d, r, sig)); var cost := r.delta * s.tariffs[d];
            && Get(s'.deposits, a) == Get(s.deposits, a) - (if a == d then cost else 0)
            && OperatorLedger(s', a).totalEarned
               == OperatorLedger(s, a).totalEarned + (if a == s.registrations[d].operator then cost else 0)
            && OperatorLedger(s', a).totalSettled == OperatorLedger(s, a).totalSettled
            && Counter(s', a).lastSeq == (if a == d then r.seqNo else Counter(s, a).lastSeq)
            && Counter(s', a).cumulativeUnits == Counter(s, a).cumulativeUnits + (if a == d then r.delta else 0)
            && Counter(s', a).lastTs == (if a == d then env.now else Counter(s, a).lastTs)
            && s'.wallets == s.wallets
            && |s'.log| == |s.log| + 1 && s.log <= s'.log && Last(s'.log).ledger == env.ledger
            && var e := Last(s'.log).event;
               && e.Metered? && e.device == d && e.units == r.delta && e.cost == cost
               && e.balanceAfter == Get(s'.deposits, d) && e.seqNo == r.seqNo && e.ledgerTs == env.now
  {
  }

  // ---- Exactly when ----

  /** In a sound state a deposit is accepted exactly when the registered device itself agrees and
      owns the positive amount: no overflow stands in its way. */
  lemma DepositExactly(s: State, env: Env, d: Address, amount: i128, donated: nat)
    requires Sound(s, donated)
    ensures Accepted(s, env, Deposit(d, amount)) <==>
              d != SELF && d in env.auth && d in s.registrations && 0 < amount <= Get(s.wallets, d)
  {
    if d != SELF && 0 < amount <= Get(s.wallets, d) {
      Backed(s, donated);
      SumBounds(s.deposits, d);
      SumBoundsTwo(s.wallets, SELF, d);
    }
  }

  /** Both parties agree, the rate is not negative, and the device is new. */
  lemma RegisterExactly(s: State, env: Env, d: Address, key: PubKey, o: Address, rate: i128)
    ensures Accepted(s, env, Register(d, key, o, rate)) <==>
              SELF !in {d, o} && {d, o} <= env.auth && 0 <= rate && d !in s.registrations
  {
  }

  /** The operator agrees and asks for a positive amount within its unpaid earnings. */
  lemma SettleExactly(s: State, env: Env, o: Address, amount: i128, donated: nat)
    requires Sound(s, donated)
    ensures Accepted(s, env, Settle(o, amount)) <==>
              && o != SELF && o in env.auth
              && 0 < amount <= OperatorLedger(s, o).totalEarned - OperatorLedger(s, o).totalSettled
  {
    if o != SELF && o in env.auth {
      WithinEarningsSettles(s, env, o, amount, donated);
    }
  }

  /** The reading is next, signed by the registered key, paid for by the deposit, and both the
      operator's earnings and the unit counter have room for it. */
  lemma SubmitExactly(s: State, env: Env, d: Address, r: Reading, sig: Signature)
    requires WellKept(s)
    ensures Accepted(s, env, Submit(d, r, sig)) <==>
              && d in s.registrations && 0 < r.delta && r.seqNo == Counter(s, d).lastSeq + 1
              && SignedBy(env, s.registrations[d].pubkey, r, sig)
              && r.delta * Get(s.tariffs, d) <= Get(s.deposits, d)
              && OperatorLedger(s, s.registrations[d].operator).totalEarned + r.delta * Get(s.tariffs, d) <= I128_MAX
              && Counter(s, d).cumulativeUnits + r.delta <= U64_MAX
  {
    if d in s.registrations {
      GenuineExactly(env, s.registrations[d].pubkey, r, sig);
      Recorded(s, d);
    }
  }

  // ---- Which error ----

  /** Why a registration is refused. */
  lemma RegisterErrors(s: State, env: Env, d: Address, key: PubKey, o: Address, rate: i128)
    requires !Accepted(s, env, Register(d, key, o, rate))
    ensures var r, agreed := RegisterRefusal(s, env, d, o, rate), SELF !in {d, o} && {d, o} <= env.auth;
            && (r == Trap <==> !agreed)
            && (r == Err(InvalidRate) <==> agreed && rate < 0)
            && (r == Err(AlreadyRegistered) <==> agreed && 0 <= rate && d in s.registrations)
  {
  }

  /** Why a deposit is refused in a sound state. The overflow can only come up for an amount that
      the device does not own. */
  lemma DepositErrors(s: State, env: Env, d: Address, amount: i128, donated: nat)
    requires Sound(s, donated) && !Accepted(s, env, Deposit(d, amount))
    ensures var r, agreed, known := DepositRefusal(s, env, d, amount), d != SELF && d in env.auth, d in s.registrations;
            && (r == Err(NotRegistered) <==> agreed && !known)
            && (r == Err(InvalidAmount) <==> agreed && known && amount <= 0)
            && (r == Err(Overflow) <==> agreed && known && 0 < amount && Get(s.deposits, d) > I128_MAX - amount)
            && (r == Trap <==> !agreed || (known && Get(s.wallets, d) < amount <= I128_MAX - Get(s.deposits, d)))
            && (r == Err(Overflow) ==> Get(s.wallets, d) < amount)
  {
    DepositExactly(s, env, d, amount, donated);
    SumBounds(s.wallets, d);
    ArithmeticBounds(s, env, d, amount, Reading(0, 0, 0), Signature(seq(32, _ => 0), []), donated);
  }

  /** Why a settlement is refused in a sound state: never for lack of custody, never by overflow. */
  lemma SettleErrors(s: State, env: Env, o: Address, amount: i128, donated: nat)
    requires Sound(s, donated) && !Accepted(s, env, Settle(o, amount))
    ensures var r, agreed := SettleRefusal(s, env, o, amount), o != SELF && o in env.auth;
            var unpaid := OperatorLedger(s, o).totalEarned - OperatorLedger(s, o).totalSettled;
            && (r == Trap <==> !agreed)
            && (r == Err(InvalidAmount) <==> agreed && amount <= 0)
            && (r == Err(InsufficientEarnings) <==> agreed && 0 < amount && unpaid < amount)
            && r in {Trap, Err(InvalidAmount), Err(InsufficientEarnings)}
  {
    ArithmeticBounds(s, env, o, amount, Reading(0, 0, 0), Signature(seq(32, _ => 0), []), donated);
    if o != SELF && o in env.auth {
      WithinEarningsSettles(s, env, o, amount, donated);
    }
  }

  /** This key has signed exactly this reading, and the signature presented is that one. */
  predicate SignedBy(env: Env, key: PubKey, r: Reading, sig: Signature) {
    && sig.signer == key && Decode(sig.message) == Some((key, r))
    && (sig.signer, sig.message) in env.signed
  }

  lemma GenuineExactly(env: Env, key: PubKey, r: Reading, sig: Signature)
    ensures Genuine(env, key, r, sig) <==> SignedBy(env, key, r, sig)
  {
    DecodeMessage(key, r);
    if SignedBy(env, key, r, sig) {
      MessageDecode(sig.message);
    }
  }

  /** Why a reading is refused in a sound state, in the order in which the reasons are looked for. */
  lemma SubmitErrors(s: State, env: Env, d: Address, r: Reading, sig: Signature, donated: nat)
    requires Sound(s, donated) && !Accepted(s, env, Submit(d, r, sig))
    ensures var e, last := SubmitRefusal(s, env, d, r, sig), Counter(s, d).lastSeq;
            var known, some, next := d in s.registrations, 0 < r.delta, r.seqNo == last + 1;
            && (e == Err(NotRegistered) <==> !known)
            && (e == Err(ZeroReading) <==> known && !some)
            && (e == Err(InvalidSequence) <==> known && some && last < U64_MAX && !next)
            && (e == Trap <==> known && some && next && !SignedBy(env, s.registrations[d].pubkey, r, sig))
            && (known && some && next && SignedBy(env, s.registrations[d].pubkey, r, sig) ==>
                  UnpaidErrors(s, d, r, e))
            && (known && some && last == U64_MAX ==> e == Err(Overflow))
  {
    if d in s.registrations {
      GenuineExactly(env, s.registrations[d].pubkey, r, sig);
      Recorded(s, d);
    }
  }

  /** A genuine next reading fails for want of money or of room, and for nothing else. */
  predicate UnpaidErrors(s: State, d: Address, r: Reading, e: Outcome<i128>)
    requires d in s.registrations
  {
    var cost, deposit := r.delta * Get(s.tariffs, d), Get(s.deposits, d);
    && e in {Err(InsufficientBalance), Err(Overflow)}
    && (e == Err(InsufficientBalance) <==> deposit < cost <= I128_MAX)
    && (e == Err(Overflow) <==>
          || cost > I128_MAX
          || (cost <= deposit
              && (OperatorLedger(s, s.registrations[d].operator).totalEarned + cost > I128_MAX
                  || Counter(s, d).cumulativeUnits + r.delta > U64_MAX)))
  }

  lemma Recorded(s: State, d: Address)
    requires WellKept(s) && d in s.registrations
    ensures s.registrations[d].status == Active && d in s.tariffs && 0 <= s.tariffs[d] && d in s.deposits
  {
    assert d in s.registrations.Keys;
  }

  /** The guards that no state of a run ever trips, in any state whatsoever: a device that is not
      active, records that are missing or negative, a token that was never configured. */
  lemma GuardErrors(s: State, env: Env, d: Address, r: Reading, sig: Signature, o: Address, amount: i128)
    ensures d in s.registrations && s.registrations[d].status != Active ==>
              !Accepted(s, env, Submit(d, r, sig)) && SubmitRefusal(s, env, d, r, sig) == Err(DeviceNotActive)
    ensures PastSignature(s, env, d, r, sig) && d !in s.tariffs ==>
              !Accepted(s, env, Submit(d, r, sig)) && SubmitRefusal(s, env, d, r, sig) == Err(NotRegistered)
    ensures PastSignature(s, env, d, r, sig) && d in s.tariffs && s.tariffs[d] < 0 ==>
              !Accepted(s, env, Submit(d, r, sig)) && SubmitRefusal(s, env, d, r, sig) == Err(InvalidRate)
    ensures PastSignature(s, env, d, r, sig) && d in s.tariffs && 0 <= r.delta * s.tariffs[d] <= I128_MAX && 0 <= s.tariffs[d]
            && d !in s.deposits ==>
              !Accepted(s, env, Submit(d, r, sig)) && SubmitRefusal(s, env, d, r, sig) == Err(NotRegistered)
    ensures s.token.None? ==>
              && !Accepted(s, env, Deposit(d, amount)) && !Accepted(s, env, Settle(o, amount))
              && (d != SELF && d in env.auth && d in s.registrations && 0 < amount <= I128_MAX - Get(s.deposits, d) ==>
                    DepositRefusal(s, env, d, amount) == Err(NotInitialized))
              && (o != SELF && o in env.auth && 0 < amount <= Withdrawable(s, o) ==>
                    SettleRefusal(s, env, o, amount) == Err(NotInitialized))
  {
    if d in s.registrations {
      GenuineExactly(env, s.registrations[d].pubkey, r, sig);
    }
  }

  /** Everything up to and including the signature check is in order. */
  predicate PastSignature(s: State, env: Env, d: Address, r: Reading, sig: Signature) {
    && d in s.registrations && s.registrations[d].status == Active
    && 0 < r.delta && r.seqNo == Counter(s, d).lastSeq + 1 && SignedBy(env, s.registrations[d].pubkey, r, sig)
  }
}
