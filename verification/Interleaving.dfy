/** Readings of different devices commute: whether a batch of readings is billed, and the
    ledgers it leaves, depend on each device's own stream and on nothing else. */
module Interleaving {
  import opened Prelude
  import opened Codec
  import opened Billing

  /** A signed reading as it reaches the chain, in whatever ledger that happens. */
  datatype Submission = Submission(device: Address, reading: Reading, sig: Signature, env: Env)

  predicate Bills(s: State, x: Submission) {
    Billable(s, x.env, x.device, x.reading, x.sig)
  }

  function Apply(s: State, x: Submission): State {
    Invoke(s, x.env, Submit(x.device, x.reading, x.sig))
  }

  predicate AllBill(s: State, batch: seq<Submission>)
    decreases |batch|
  {
    batch == [] || (Bills(s, batch[0]) && AllBill(Apply(s, batch[0]), batch[1..]))
  }

  function ApplyAll(s: State, batch: seq<Submission>): State
    decreases |batch|
  {
    if batch == [] then s else ApplyAll(Apply(s, batch[0]), batch[1..])
  }

  /** The stream of one device within a batch. */
  function Stream(batch: seq<Submission>, d: Address): seq<Submission> {
    if batch == [] then []
    else (if batch[0].device == d then [batch[0]] else []) + Stream(batch[1..], d)
  }

  /** Everything billing needs to know about one device. */
  datatype Meter = Meter(key: PubKey, rate: int, deposit: int, lastSeq: int, units: int)

  function MeterOf(s: State, d: Address): Option<Meter> {
    if && d in s.registrations && s.registrations[d].status == Active
       && d in s.tariffs && 0 <= s.tariffs[d] && d in s.deposits
    then Some(Meter(s.registrations[d].pubkey, s.tariffs[d], s.deposits[d],
                    Counter(s, d).lastSeq, Counter(s, d).cumulativeUnits))
    else None
  }

  predicate MeterAdmits(m: Meter, x: Submission) {
    && 0 < x.reading.delta
    && x.reading.seqNo == m.lastSeq + 1
    && Genuine(x.env, m.key, x.reading, x.sig)
    && x.reading.delta * m.rate <= m.deposit
    && m.units + x.reading.delta <= U64_MAX
  }

  function Metered1(m: Meter, x: Submission): Meter {
    m.(deposit := m.deposit - x.reading.delta * m.rate,
       lastSeq := x.reading.seqNo,
       units := m.units + x.reading.delta)
  }

  predicate StreamBills(m: Option<Meter>, own: seq<Submission>)
    decreases |own|
  {
    own == [] ||
    (m.Some? && MeterAdmits(m.value, own[0]) && StreamBills(Some(Metered1(m.value, own[0])), own[1..]))
  }

  function MeterAfter(m: Option<Meter>, own: seq<Submission>): Option<Meter>
    decreases |own|
  {
    if own == [] || m.None? then m else MeterAfter(Some(Metered1(m.value, own[0])), own[1..])
  }

  /** What one submission credits to an operator; registrations and tariffs do not move. */
  function Credit(s: State, x: Submission, o: Address): int {
    if && x.device in s.registrations && s.registrations[x.device].operator == o
       && x.device in s.tariffs && 0 <= s.tariffs[x.device]
    then x.reading.delta * s.tariffs[x.device]
    else 0
  }

  function Credits(s: State, batch: seq<Submission>, o: Address): int {
    if batch == [] then 0 else Credit(s, batch[0], o) + Credits(s, batch[1..], o)
  }

  lemma {:induction false} CreditsNonNegative(s: State, batch: seq<Submission>, o: Address)
    ensures 0 <= Credits(s, batch, o)
  {
    if batch != [] {
      var x := batch[0];
      if x.device in s.tariffs && 0 <= s.tariffs[x.device] {
        CostNonNegative(x.reading.delta, s.tariffs[x.device]);
      }
      CreditsNonNegative(s, batch[1..], o);
    }
  }

  lemma {:induction false} CreditsFrame(s1: State, s2: State, batch: seq<Submission>, o: Address)
    requires s1.registrations == s2.registrations && s1.tariffs == s2.tariffs
    ensures Credits(s1, batch, o) == Credits(s2, batch, o)
  {
    if batch != [] {
      CreditsFrame(s1, s2, batch[1..], o);
    }
  }

  /** One reading, seen by its own device, by the others, and by the operators. */
  lemma OneReading(s: State, x: Submission)
    ensures var m := MeterOf(s, x.device);
            Bills(s, x) <==>
              && m.Some? && MeterAdmits(m.value, x)
              && OperatorLedger(s, s.registrations[x.device].operator).totalEarned
                 + Credit(s, x, s.registrations[x.device].operator) <= I128_MAX
    ensures Bills(s, x) ==>
              var s' := Apply(s, x);
              && MeterOf(s', x.device) == Some(Metered1(MeterOf(s, x.device).value, x))
              && s'.registrations == s.registrations && s'.tariffs == s.tariffs && s'.wallets == s.wallets
              && s'.deposits.Keys == s.deposits.Keys
  {
    if x.device in s.tariffs && 0 <= s.tariffs[x.device] {
      CostNonNegative(x.reading.delta, s.tariffs[x.device]);
    }
  }

  lemma OneReadingElsewhere(s: State, x: Submission, d: Address, o: Address)
    requires Bills(s, x)
    ensures d != x.device ==> MeterOf(Apply(s, x), d) == MeterOf(s, d)
    ensures OperatorLedger(Apply(s, x), o).totalEarned == OperatorLedger(s, o).totalEarned + Credit(s, x, o)
    ensures OperatorLedger(Apply(s, x), o).totalSettled == OperatorLedger(s, o).totalSettled
  {
  }

  ghost predicate StreamsBill(s: State, batch: seq<Submission>) {
    forall d: Address :: StreamBills(MeterOf(s, d), Stream(batch, d))
  }

  ghost predicate CreditsFit(s: State, batch: seq<Submission>) {
    forall o: Address :: OperatorLedger(s, o).totalEarned + Credits(s, batch, o) <= I128_MAX
  }

  /** A batch is billed completely exactly when every device's own stream would be, and
      each operator's final total fits: the order across devices plays no part. */
  lemma {:induction false} BatchBills(s: State, batch: seq<Submission>)
    ensures AllBill(s, batch) <==> StreamsBill(s, batch) && CreditsFit(s, batch)
    decreases |batch|
  {
    if batch == [] {
      forall d: Address ensures StreamBills(MeterOf(s, d), Stream(batch, d)) {
      }
    } else {
      var x, rest := batch[0], batch[1..];
      OneReading(s, x);
      if Bills(s, x) {
        BatchBills(Apply(s, x), rest);
        StreamsStep(s, batch);
        CreditsStep(s, batch);
      } else {
        if StreamsBill(s, batch) && CreditsFit(s, batch) {
          FirstBills(s, batch);
        }
      }
    }
  }

  lemma FirstBills(s: State, batch: seq<Submission>)
    requires batch != [] && StreamsBill(s, batch) && CreditsFit(s, batch)
    ensures Bills(s, batch[0])
  {
    var x := batch[0];
    OneReading(s, x);
    assert StreamBills(MeterOf(s, x.device), Stream(batch, x.device));
    var o := s.registrations[x.device].operator;
    CreditsNonNegative(s, batch[1..], o);
    assert OperatorLedger(s, o).totalEarned + Credits(s, batch, o) <= I128_MAX;
  }

  lemma StreamsStep(s: State, batch: seq<Submission>)
    requires batch != [] && Bills(s, batch[0])
    ensures StreamsBill(s, batch) <==> StreamsBill(Apply(s, batch[0]), batch[1..])
  {
    var x, rest, s' := batch[0], batch[1..], Apply(s, batch[0]);
    OneReading(s, x);
    forall d: Address
      ensures StreamBills(MeterOf(s, d), Stream(batch, d)) <==> StreamBills(MeterOf(s', d), Stream(rest, d))
    {
      OneReadingElsewhere(s, x, d, d);
      if d == x.device {
        assert Stream(batch, d)[1..] == Stream(rest, d);
      } else {
        assert Stream(batch, d) == Stream(rest, d);
      }
    }
  }

  lemma CreditsStep(s: State, batch: seq<Submission>)
    requires batch != [] && Bills(s, batch[0])
    ensures CreditsFit(s, batch) <==> CreditsFit(Apply(s, batch[0]), batch[1..])
  {
    var x, rest, s' := batch[0], batch[1..], Apply(s, batch[0]);
    OneReading(s, x);
    forall o: Address
      ensures OperatorLedger(s, o).totalEarned + Credits(s, batch, o)
              == OperatorLedger(s', o).totalEarned + Credits(s', rest, o)
    {
      OneReadingElsewhere(s, x, o, o);
      CreditsFrame(s, s', rest, o);
    }
  }

  /** The ledgers a completely billed batch leaves: the device is where its own stream alone
      takes it, and the operator has earned the credits of the batch. */
  predicate BilledAlong(s: State, batch: seq<Submission>, s': State, d: Address, o: Address) {
    && MeterOf(s', d) == MeterAfter(MeterOf(s, d), Stream(batch, d))
    && OperatorLedger(s', o).totalEarned == OperatorLedger(s, o).totalEarned + Credits(s, batch, o)
    && OperatorLedger(s', o).totalSettled == OperatorLedger(s, o).totalSettled
    && s'.registrations == s.registrations && s'.tariffs == s.tariffs && s'.wallets == s.wallets
    && s'.deposits.Keys == s.deposits.Keys
  }

  lemma {:induction false} BatchOutcome(s: State, batch: seq<Submission>, d: Address, o: Address)
    requires AllBill(s, batch)
    ensures BilledAlong(s, batch, ApplyAll(s, batch), d, o)
    decreases |batch|
  {
    if batch != [] {
      var x, rest, s1 := batch[0], batch[1..], Apply(s, batch[0]);
      OneReading(s, x);
      OneReadingElsewhere(s, x, d, o);
      BatchOutcome(s1, rest, d, o);
      CreditsFrame(s, s1, rest, o);
      if d == x.device {
        assert Stream(batch, d)[1..] == Stream(rest, d);
      } else {
        assert Stream(batch, d) == Stream(rest, d);
      }
    }
  }

  // ---- Two interleavings of the same streams ----

  ghost predicate SameStreams(b1: seq<Submission>, b2: seq<Submission>) {
    forall d: Address :: Stream(b1, d) == Stream(b2, d)
  }

  /** Deposits, counters and operator ledgers agree everywhere; only ledger times may differ. */
  ghost predicate SameMeters(s1: State, s2: State) {
    && s1.wallets == s2.wallets
    && (forall d: Address :: MeterOf(s1, d) == MeterOf(s2, d))
    && (forall o: Address :: OperatorLedger(s1, o) == OperatorLedger(s2, o))
  }

  lemma {:induction false} StreamAppend(a: seq<Submission>, b: seq<Submission>, d: Address)
    ensures Stream(a + b, d) == Stream(a, d) + Stream(b, d)
  {
    if a == [] {
      assert a + b == b;
    } else {
      assert (a + b)[1..] == a[1..] + b;
      StreamAppend(a[1..], b, d);
    }
  }

  lemma {:induction false} CreditsAppend(s: State, a: seq<Submission>, b: seq<Submission>, o: Address)
    ensures Credits(s, a + b, o) == Credits(s, a, o) + Credits(s, b, o)
  {
    if a == [] {
      assert a + b == b;
    } else {
      assert (a + b)[1..] == a[1..] + b;
      CreditsAppend(s, a[1..], b, o);
    }
  }

  /** Splits a batch around the first reading of a device. */
  lemma {:induction false} FirstOf(batch: seq<Submission>, d: Address) returns (a: seq<Submission>, b: seq<Submission>)
    requires Stream(batch, d) != []
    ensures batch == a + [Stream(batch, d)[0]] + b && Stream(a, d) == []
  {
    if batch[0].device == d {
      a, b := [], batch[1..];
    } else {
      a, b := FirstOf(batch[1..], d);
      a := [batch[0]] + a;
      assert a[1..] + [Stream(batch, d)[0]] + b == batch[1..];
    }
  }

  lemma StreamOfFirst(batch: seq<Submission>)
    ensures batch == [] || Stream(batch, batch[0].device) != []
  {
  }

  lemma SameStreamsTail(b1: seq<Submission>, b2: seq<Submission>, a: seq<Submission>, b: seq<Submission>)
    requires SameStreams(b1, b2) && b1 != [] && b2 == a + [b1[0]] + b
    requires Stream(a, b1[0].device) == []
    ensures SameStreams(b1[1..], a + b)
  {
    var x := b1[0];
    forall d: Address ensures Stream(b1[1..], d) == Stream(a + b, d) {
      assert Stream(b1, d) == Stream(b2, d);
      StreamAppend(a + [x], b, d);
      StreamAppend(a, [x], d);
      StreamAppend(a, b, d);
      assert [x][1..] == [];
      if d == x.device {
        assert Stream([x], d) == [x];
        assert Stream(b1, d)[1..] == Stream(b1[1..], d);
        assert Stream(b2, d) == [x] + Stream(b, d);
      } else {
        assert Stream([x], d) == [];
        assert Stream(b1, d) == Stream(b1[1..], d);
        assert Stream(b2, d) == Stream(a, d) + Stream(b, d);
      }
    }
  }

  lemma {:induction false} SameStreamsSameCredits(s: State, b1: seq<Submission>, b2: seq<Submission>, o: Address)
    requires SameStreams(b1, b2)
    ensures Credits(s, b1, o) == Credits(s, b2, o)
    decreases |b1|
  {
    if b1 == [] {
      StreamOfFirst(b2);
    } else {
      var x := b1[0];
      assert Stream(b1, x.device)[0] == x;
      assert Stream(b2, x.device) == Stream(b1, x.device);
      var a, b := FirstOf(b2, x.device);
      SameStreamsTail(b1, b2, a, b);
      SameStreamsSameCredits(s, b1[1..], a + b, o);
      CreditsAppend(s, a + [x], b, o);
      CreditsAppend(s, a, [x], o);
      CreditsAppend(s, a, b, o);
      assert Credits(s, [x], o) == Credit(s, x, o);
    }
  }

  lemma {:induction false} SameStreamsAgree(s: State, b1: seq<Submission>, b2: seq<Submission>)
    requires SameStreams(b1, b2)
    ensures AllBill(s, b1) <==> AllBill(s, b2)
    ensures AllBill(s, b1) ==> SameMeters(ApplyAll(s, b1), ApplyAll(s, b2))
  {
    BatchBills(s, b1);
    BatchBills(s, b2);
    SameStreamsSameConditions(s, b1, b2);
    if AllBill(s, b1) {
      forall a: Address
        ensures MeterOf(ApplyAll(s, b1), a) == MeterOf(ApplyAll(s, b2), a)
        ensures OperatorLedger(ApplyAll(s, b1), a) == OperatorLedger(ApplyAll(s, b2), a)
        ensures ApplyAll(s, b1).wallets == ApplyAll(s, b2).wallets
      {
        SameStreamsSameOutcome(s, b1, b2, a);
      }
      SameStreamsSameOutcome(s, b1, b2, SELF);
    }
  }

  lemma SameStreamsSameConditions(s: State, b1: seq<Submission>, b2: seq<Submission>)
    requires SameStreams(b1, b2)
    ensures StreamsBill(s, b1) <==> StreamsBill(s, b2)
    ensures CreditsFit(s, b1) <==> CreditsFit(s, b2)
  {
    forall a: Address
      ensures StreamBills(MeterOf(s, a), Stream(b1, a)) <==> StreamBills(MeterOf(s, a), Stream(b2, a))
      ensures Credits(s, b1, a) == Credits(s, b2, a)
    {
      assert Stream(b1, a) == Stream(b2, a);
      SameStreamsSameCredits(s, b1, b2, a);
    }
  }

  lemma {:induction false} SameStreamsSameOutcome(s: State, b1: seq<Submission>, b2: seq<Submission>, a: Address)
    requires SameStreams(b1, b2) && AllBill(s, b1) && AllBill(s, b2)
    ensures var s1, s2 := ApplyAll(s, b1), ApplyAll(s, b2);
            && MeterOf(s1, a) == MeterOf(s2, a) && OperatorLedger(s1, a) == OperatorLedger(s2, a)
            && s1.wallets == s2.wallets
  {
    BatchOutcome(s, b1, a, a);
    BatchOutcome(s, b2, a, a);
    assert Stream(b1, a) == Stream(b2, a);
    SameStreamsSameCredits(s, b1, b2, a);
  }

  // ---- Two interleavings at different times ----

  /** A submission without the ledger it lands in: only whether its signature is genuine. */
  function Timeless(x: Submission): Submission {
    x.(env := Env(0, 0, {}, x.env.signed * {(x.sig.signer, x.sig.message)}))
  }

  function TimelessAll(batch: seq<Submission>): seq<Submission> {
    if batch == [] then [] else [Timeless(batch[0])] + TimelessAll(batch[1..])
  }

  /** Each device sends the same signed readings in the same order in both batches; when they
      land, and between which readings of other devices, may differ. */
  ghost predicate SameReadings(b1: seq<Submission>, b2: seq<Submission>) {
    SameStreams(TimelessAll(b1), TimelessAll(b2))
  }

  lemma {:induction false} TimelessStream(batch: seq<Submission>, d: Address)
    ensures Stream(TimelessAll(batch), d) == TimelessAll(Stream(batch, d))
  {
    if batch != [] {
      TimelessStream(batch[1..], d);
      assert TimelessAll(batch)[1..] == TimelessAll(batch[1..]);
      if batch[0].device == d {
        assert Stream(batch, d)[1..] == Stream(batch[1..], d);
      } else {
        assert Stream(batch, d) == Stream(batch[1..], d);
      }
    }
  }

  lemma {:induction false} TimelessMeter(m: Option<Meter>, own: seq<Submission>)
    ensures StreamBills(m, TimelessAll(own)) <==> StreamBills(m, own)
    ensures MeterAfter(m, TimelessAll(own)) == MeterAfter(m, own)
    decreases |own|
  {
    if own != [] && m.Some? {
      assert TimelessAll(own)[1..] == TimelessAll(own[1..]);
      assert MeterAdmits(m.value, Timeless(own[0])) <==> MeterAdmits(m.value, own[0]);
      TimelessMeter(Some(Metered1(m.value, own[0])), own[1..]);
    }
  }

  lemma {:induction false} TimelessCredits(s: State, batch: seq<Submission>, o: Address)
    ensures Credits(s, TimelessAll(batch), o) == Credits(s, batch, o)
  {
    if batch != [] {
      TimelessCredits(s, batch[1..], o);
      assert TimelessAll(batch)[1..] == TimelessAll(batch[1..]);
    }
  }

  lemma {:induction false} TimelessBills(s: State, batch: seq<Submission>)
    ensures AllBill(s, TimelessAll(batch)) <==> AllBill(s, batch)
  {
    BatchBills(s, batch);
    BatchBills(s, TimelessAll(batch));
    forall a: Address
      ensures StreamBills(MeterOf(s, a), Stream(TimelessAll(batch), a)) <==> StreamBills(MeterOf(s, a), Stream(batch, a))
      ensures Credits(s, TimelessAll(batch), a) == Credits(s, batch, a)
    {
      TimelessStream(batch, a);
      TimelessMeter(MeterOf(s, a), Stream(batch, a));
      TimelessCredits(s, batch, a);
    }
  }

  lemma TimelessOutcome(s: State, batch: seq<Submission>, a: Address)
    requires AllBill(s, batch) && AllBill(s, TimelessAll(batch))
    ensures var s1, s2 := ApplyAll(s, batch), ApplyAll(s, TimelessAll(batch));
            && MeterOf(s1, a) == MeterOf(s2, a) && OperatorLedger(s1, a) == OperatorLedger(s2, a)
            && s1.wallets == s2.wallets
  {
    BatchOutcome(s, batch, a, a);
    BatchOutcome(s, TimelessAll(batch), a, a);
    TimelessStream(batch, a);
    TimelessMeter(MeterOf(s, a), Stream(batch, a));
    TimelessCredits(s, batch, a);
  }

  /** Any two interleavings of the same device streams, whenever their readings land, are
      billed completely or not together, and leave the same deposits, counters and operator
      ledgers. */
  lemma {:induction false} InterleavingsAgree(s: State, b1: seq<Submission>, b2: seq<Submission>)
    requires SameReadings(b1, b2)
    ensures AllBill(s, b1) <==> AllBill(s, b2)
    ensures AllBill(s, b1) ==> SameMeters(ApplyAll(s, b1), ApplyAll(s, b2))
  {
    var t1, t2 := TimelessAll(b1), TimelessAll(b2);
    TimelessBills(s, b1);
    TimelessBills(s, b2);
    SameStreamsAgree(s, t1, t2);
    if AllBill(s, b1) {
      TimelessOutcome(s, b1, SELF);
      TimelessOutcome(s, b2, SELF);
      forall a: Address
        ensures MeterOf(ApplyAll(s, b1), a) == MeterOf(ApplyAll(s, b2), a)
        ensures OperatorLedger(ApplyAll(s, b1), a) == OperatorLedger(ApplyAll(s, b2), a)
      {
        TimelessOutcome(s, b1, a);
        TimelessOutcome(s, b2, a);
      }
    }
  }
}
