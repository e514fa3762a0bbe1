/** Where the billing token is: conservation, solvency and the arithmetic that follows. */
module Custody {
  import opened Prelude
  import opened Codec
  import opened Billing

  function Outstanding(operators: map<Address, OperatorBalance>): map<Address, int> {
    map o | o in operators :: operators[o].totalEarned - operators[o].totalSettled
  }

  function Held(s: State): int {
    Get(s.wallets, SELF)
  }

  /** Custody equals what devices have left, plus what operators may still withdraw,
      plus whatever was sent to the contract outside deposit_funds. */
  ghost predicate Conserved(s: State, donated: nat) {
    Held(s) == Sum(s.deposits) + Sum(Outstanding(s.operators)) + donated
  }

  ghost predicate WellKept(s: State) {
    && s.token.Some?
    && NonNegative(s.wallets) && Sum(s.wallets) <= I128_MAX
    && NonNegative(s.deposits)
    && NonNegative(s.tariffs)
    && s.registrations.Keys == s.tariffs.Keys == s.deposits.Keys
    && s.readings.Keys <= s.registrations.Keys
    && (forall d :: d in s.registrations ==> s.registrations[d].status == Active)
    && (forall o :: o in s.operators ==> 0 <= s.operators[o].totalSettled <= s.operators[o].totalEarned)
    && (forall d :: d in s.readings ==> s.readings[d].lastSeq <= s.readings[d].cumulativeUnits)
  }

  ghost predicate Sound(s: State, donated: nat) {
    WellKept(s) && Conserved(s, donated)
  }

  lemma TransferKeepsSupply(w: map<Address, int>, from: Address, to: Address, amount: int)
    requires NonNegative(w) && from != to && 0 <= amount && Transferable(w, from, to, amount)
    ensures var w' := Transfer(w, from, to, amount);
            && NonNegative(w') && Sum(w') == Sum(w)
            && Get(w', from) == Get(w, from) - amount && Get(w', to) == Get(w, to) + amount
  {
    var mid := w[from := Get(w, from) - amount];
    SumUpdate(w, from, Get(w, from) - amount);
    SumUpdate(mid, to, Get(w, to) + amount);
    assert Get(mid, to) == Get(w, to);
  }

  lemma OutstandingUpdate(operators: map<Address, OperatorBalance>, o: Address, bal: OperatorBalance)
    ensures Sum(Outstanding(operators[o := bal]))
            == Sum(Outstanding(operators)) - Get(Outstanding(operators), o) + bal.totalEarned - bal.totalSettled
  {
    var v := bal.totalEarned - bal.totalSettled;
    SumUpdate(Outstanding(operators), o, v);
    assert Outstanding(operators[o := bal]) == Outstanding(operators)[o := v];
  }

  /** Every transaction, accepted or refused, conserves the token and keeps the books. */
  lemma InvokeKeepsSound(s: State, env: Env, call: Call, donated: nat)
    requires Sound(s, donated)
    ensures Sound(Invoke(s, env, call), donated)
  {
    if Accepted(s, env, call) {
      match call {
        case Register(d, pubkey, o, rate) => RegisteredKeepsSound(s, env, d, pubkey, o, rate, donated);
        case Deposit(d, amount) => FundedKeepsSound(s, env, d, amount, donated);
        case Submit(d, r, sig) =>
          BilledConserves(s, env, d, r, sig, donated);
          BilledWellKept(s, env, d, r, sig);
        case Settle(o, amount) => PaidKeepsSound(s, env, o, amount, donated);
      }
    }
  }

  lemma RegisteredKeepsSound(s: State, env: Env, d: Address, pubkey: PubKey, o: Address, rate: i128, donated: nat)
    requires Sound(s, donated) && Registrable(s, env, d, o, rate)
    ensures Sound(Registered(s, env, d, pubkey, o, rate), donated)
  {
    SumUpdate(s.deposits, d, 0);
  }

  lemma FundedKeepsSound(s: State, env: Env, d: Address, amount: i128, donated: nat)
    requires Sound(s, donated) && Depositable(s, env, d, amount)
    ensures Sound(Funded(s, env, d, amount), donated)
  {
    TransferKeepsSupply(s.wallets, d, SELF, amount);
    SumUpdate(s.deposits, d, Get(s.deposits, d) + amount);
  }

  lemma {:induction false} BilledConserves(s: State, env: Env, d: Address, r: Reading, sig: Signature, donated: nat)
    requires Conserved(s, donated) && Billable(s, env, d, r, sig)
    ensures Conserved(Billed(s, env, d, r, sig), donated)
  {
    var o, cost := s.registrations[d].operator, Cost(s, d, r);
    CostNonNegative(r.delta, s.tariffs[d]);
    var bal := OperatorLedger(s, o);
    SumUpdate(s.deposits, d, s.deposits[d] - cost);
    OutstandingUpdate(s.operators, o, bal.(totalEarned := bal.totalEarned + cost));
  }

  lemma {:induction false} BilledWellKept(s: State, env: Env, d: Address, r: Reading, sig: Signature)
    requires WellKept(s) && Billable(s, env, d, r, sig)
    ensures WellKept(Billed(s, env, d, r, sig))
  {
    CostNonNegative(r.delta, s.tariffs[d]);
    var s' := Billed(s, env, d, r, sig);
    assert s'.wallets == s.wallets && s'.tariffs == s.tariffs && s'.registrations == s.registrations;
    assert d in s.registrations.Keys;
    assert s'.deposits.Keys == s.deposits.Keys && s'.readings.Keys == s.readings.Keys + {d};
  }

  lemma PaidKeepsSound(s: State, env: Env, o: Address, amount: i128, donated: nat)
    requires Sound(s, donated) && Settleable(s, env, o, amount)
    ensures Sound(Paid(s, env, o, amount), donated)
  {
    PaidWellKept(s, env, o, amount);
    TransferKeepsSupply(s.wallets, SELF, o, amount);
    var bal := OperatorLedger(s, o);
    OutstandingUpdate(s.operators, o, bal.(totalSettled := bal.totalSettled + amount));
  }

  lemma PaidWellKept(s: State, env: Env, o: Address, amount: i128)
    requires WellKept(s) && Settleable(s, env, o, amount)
    ensures WellKept(Paid(s, env, o, amount))
  {
    TransferKeepsSupply(s.wallets, SELF, o, amount);
  }

  /** Other movements of the token: anything that does not take from the contract and
      keeps the supply within an i128. What reaches the contract is a donation. */
  ghost predicate TokenMayMove(s: State, wallets: map<Address, int>) {
    NonNegative(wallets) && Sum(wallets) <= I128_MAX && Held(s) <= Get(wallets, SELF)
  }

  /** What the contract owes is always in its custody. */
  lemma Backed(s: State, donated: nat)
    requires Sound(s, donated)
    ensures 0 <= Sum(s.deposits) && 0 <= Sum(Outstanding(s.operators))
    ensures Sum(s.deposits) + Sum(Outstanding(s.operators)) <= Held(s) <= Sum(s.wallets)
  {
    SumNonNegative(s.deposits);
    SumNonNegative(Outstanding(s.operators));
    SumBounds(s.wallets, SELF);
  }

  /** An operator who asks for no more than it has earned is never refused and the
      payment never fails, whatever the other operators and devices hold. */
  lemma WithinEarningsSettles(s: State, env: Env, o: Address, amount: i128, donated: nat)
    requires Sound(s, donated) && Authorized(env, o)
    ensures Settleable(s, env, o, amount) <==> 0 < amount <= Withdrawable(s, o)
  {
    if 0 < amount <= Withdrawable(s, o) {
      Backed(s, donated);
      SumBounds(Outstanding(s.operators), o);
      assert Get(Outstanding(s.operators), o) == Withdrawable(s, o);
      SumBoundsTwo(s.wallets, SELF, o);
    }
  }

  // ---- Any sequence of settlements ----

  datatype Claim = Claim(operator: Address, amount: i128)

  function Claimed(claims: seq<Claim>, o: Address): int {
    if claims == [] then 0
    else (if claims[0].operator == o then claims[0].amount else 0) + Claimed(claims[1..], o)
  }

  lemma {:induction false} ClaimedNonNegative(claims: seq<Claim>, o: Address)
    requires forall i :: 0 <= i < |claims| ==> 0 < claims[i].amount
    ensures 0 <= Claimed(claims, o)
  {
    if claims != [] {
      ClaimedNonNegative(claims[1..], o);
    }
  }

  function SettleAll(s: State, env: Env, claims: seq<Claim>): State
    decreases |claims|
  {
    if claims == [] then s
    else SettleAll(Invoke(s, env, Settle(claims[0].operator, claims[0].amount)), env, claims[1..])
  }

  predicate AllSettle(s: State, env: Env, claims: seq<Claim>)
    decreases |claims|
  {
    claims == [] ||
    (&& Settleable(s, env, claims[0].operator, claims[0].amount)
     && AllSettle(Invoke(s, env, Settle(claims[0].operator, claims[0].amount)), env, claims[1..]))
  }

  lemma SettledLeaves(s: State, env: Env, c: Claim)
    requires Settleable(s, env, c.operator, c.amount)
    ensures var s1 := Invoke(s, env, Settle(c.operator, c.amount));
            PaidInFull(s, s1, [c])
  {
    assert [c][1..] == [];
  }

  /** Every operator's account grew by what it claimed, and as much less is still owed to it. */
  ghost predicate PaidInFull(s: State, s': State, claims: seq<Claim>) {
    && (forall o: Address :: Withdrawable(s', o) == Withdrawable(s, o) - Claimed(claims, o))
    && (forall o: Address :: o != SELF ==> Get(s'.wallets, o) == Get(s.wallets, o) + Claimed(claims, o))
  }

  lemma PaidOneByOne(s: State, s1: State, s2: State, claims: seq<Claim>)
    requires claims != [] && PaidInFull(s, s1, [claims[0]]) && PaidInFull(s1, s2, claims[1..])
    ensures PaidInFull(s, s2, claims)
  {
    assert [claims[0]][1..] == [];
    assert forall o: Address :: Claimed(claims, o) == Claimed([claims[0]], o) + Claimed(claims[1..], o);
  }

  lemma {:induction false} ClaimsKeep(s: State, env: Env, claims: seq<Claim>, donated: nat)
    requires Sound(s, donated)
    ensures var s' := SettleAll(s, env, claims);
            Sound(s', donated) && s'.deposits == s.deposits && Sum(s'.wallets) == Sum(s.wallets)
    decreases |claims|
  {
    if claims != [] {
      var c := claims[0];
      var s1 := Invoke(s, env, Settle(c.operator, c.amount));
      InvokeKeepsSound(s, env, Settle(c.operator, c.amount), donated);
      if Settleable(s, env, c.operator, c.amount) {
        TransferKeepsSupply(s.wallets, SELF, c.operator, c.amount);
      }
      ClaimsKeep(s1, env, claims[1..], donated);
    }
  }

  lemma {:induction false} ClaimsPay(s: State, env: Env, claims: seq<Claim>)
    requires AllSettle(s, env, claims)
    ensures PaidInFull(s, SettleAll(s, env, claims), claims)
    decreases |claims|
  {
    if claims != [] {
      var c := claims[0];
      var s1 := Invoke(s, env, Settle(c.operator, c.amount));
      SettledLeaves(s, env, c);
      ClaimsPay(s1, env, claims[1..]);
      PaidOneByOne(s, s1, SettleAll(s, env, claims), claims);
    }
  }

  lemma {:induction false} ClaimsSettleExactly(s: State, env: Env, claims: seq<Claim>, donated: nat)
    requires Sound(s, donated)
    requires forall i :: 0 <= i < |claims| ==> Authorized(env, claims[i].operator) && 0 < claims[i].amount
    ensures AllSettle(s, env, claims) <==>
              forall o: Address :: Claimed(claims, o) <= Withdrawable(s, o)
    decreases |claims|
  {
    if claims == [] {
      forall o: Address ensures 0 <= Withdrawable(s, o) {
      }
    } else {
      var c, rest := claims[0], claims[1..];
      var s1 := Invoke(s, env, Settle(c.operator, c.amount));
      InvokeKeepsSound(s, env, Settle(c.operator, c.amount), donated);
      WithinEarningsSettles(s, env, c.operator, c.amount, donated);
      ClaimsSettleExactly(s1, env, rest, donated);
      forall o: Address ensures Claimed(claims, o) == Claimed([c], o) + Claimed(rest, o) && 0 <= Claimed(rest, o) {
        ClaimedNonNegative(rest, o);
        assert [c][1..] == [];
      }
      if Settleable(s, env, c.operator, c.amount) {
        SettledLeaves(s, env, c);
      } else {
        assert Withdrawable(s, c.operator) < c.amount <= Claimed(claims, c.operator);
      }
    }
  }

  /** Solvency: claims of any operators in any order all succeed exactly when each operator's
      claims together stay within what it has earned, and then every operator's own account has
      received exactly what it claimed; no device deposit moves, every deposit stays fully
      backed, and no token is lost. */
  lemma {:induction false} ClaimsSettle(s: State, env: Env, claims: seq<Claim>, donated: nat)
    requires Sound(s, donated)
    requires forall i :: 0 <= i < |claims| ==> Authorized(env, claims[i].operator) && 0 < claims[i].amount
    ensures AllSettle(s, env, claims) <==>
              forall o: Address :: Claimed(claims, o) <= Withdrawable(s, o)
    ensures var s' := SettleAll(s, env, claims);
            && Sound(s', donated) && s'.deposits == s.deposits && Sum(s.deposits) <= Held(s')
            && Sum(s'.wallets) == Sum(s.wallets)
            && (AllSettle(s, env, claims) ==> PaidInFull(s, s', claims))
  {
    ClaimsSettleExactly(s, env, claims, donated);
    ClaimsKeep(s, env, claims, donated);
    Backed(SettleAll(s, env, claims), donated);
    if AllSettle(s, env, claims) {
      ClaimsPay(s, env, claims);
    }
  }

  // ---- Arithmetic that can no longer go wrong ----

  /** In a sound state the saturating subtraction is plain subtraction, the settlement
      total never overflows, exhausting the sequence implies the unit counter is already
      exhausted, and a deposit overflows only when the wallet could not have paid. */
  lemma ArithmeticBounds(s: State, env: Env, a: Address, amount: i128, r: Reading, sig: Signature, donated: nat)
    requires Sound(s, donated)
    ensures 0 <= Withdrawable(s, a) <= Held(s) && Saturated(Withdrawable(s, a)) == Withdrawable(s, a)
    ensures !Settleable(s, env, a, amount) ==> SettleRefusal(s, env, a, amount) != Err(Overflow)
    ensures Counter(s, a).lastSeq == U64_MAX ==> Counter(s, a).cumulativeUnits == U64_MAX
    ensures DepositRefusal(s, env, a, amount) == Err(Overflow) ==> Get(s.wallets, a) < amount
    ensures Billable(s, env, a, r, sig) ==> 0 <= Cost(s, a, r) && 0 <= s.deposits[a] - Cost(s, a, r)
  {
    Backed(s, donated);
    SumBounds(Outstanding(s.operators), a);
    assert Get(Outstanding(s.operators), a) == Withdrawable(s, a);
    if a in s.tariffs {
      CostNonNegative(r.delta, s.tariffs[a]);
    }
    if DepositRefusal(s, env, a, amount) == Err(Overflow) {
      SumBounds(s.deposits, a);
      SumBoundsTwo(s.wallets, SELF, a);
    }
    if !Settleable(s, env, a, amount) && Authorized(env, a) {
      WithinEarningsSettles(s, env, a, amount, donated);
    }
  }
}
