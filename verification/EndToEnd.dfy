/** From the device's signature to the served answer: what a whole run guarantees. */
module EndToEnd {
  import opened Prelude
  import opened Codec
  import opened Billing
  import opened Journal
  import opened Custody
  import opened Store
  import opened Indexer
  import opened Emulator
  import opened Api
  import opened World
  import Effects

  // ---- Billed readings are a prefix of the emitted ones ----

  predicate BillsFor(w: World, a: Action, d: Address) {
    && a.Transaction? && a.call.Submit? && a.call.device == d
    && Billable(w.contract, EnvOf(w, a.auth), d, a.call.reading, a.call.sig)
  }

  /** The signed readings the contract accepted for a device, device timestamps included. */
  ghost function BilledReadings(w: World, actions: seq<Action>, d: Address): seq<Reading> {
    if actions == [] then []
    else if BillsFor(Run(w, Init(actions)), Last(actions), d)
    then BilledReadings(w, Init(actions), d) + [Last(actions).call.reading]
    else BilledReadings(w, Init(actions), d)
  }

  /** The billing events of one device, in chain order. */
  function DeviceMeters(log: seq<Entry>, d: Address): seq<Event> {
    if log == [] then []
    else if Last(log).event.Metered? && Last(log).event.device == d
    then DeviceMeters(Init(log), d) + [Last(log).event]
    else DeviceMeters(Init(log), d)
  }

  ghost predicate BilledOk(w: World, b: seq<Reading>, d: Address) {
    && |b| == |DeviceMeters(w.contract.log, d)| == Counter(w.contract, d).lastSeq
    && (forall i :: 0 <= i < |b| ==>
          var e := DeviceMeters(w.contract.log, d)[i];
          e.Metered? && b[i].seqNo == e.seqNo == i + 1 && b[i].delta == e.units)
    && if d in w.contract.registrations
       then b <= DeviceOf(w, w.contract.registrations[d].pubkey).emitted
       else b == []
  }

  /** Nothing verifies that the key's device did not emit. */
  lemma SignedWasEmitted(w: World, key: PubKey, r: Reading) returns (i: nat)
    requires SignaturesOk(w) && (key, Message(key, r)) in w.signed
    ensures i < |DeviceOf(w, key).emitted| && DeviceOf(w, key).emitted[i] == r
  {
    i :| 0 <= i < |DeviceOf(w, key).emitted| && Message(key, r) == Message(key, DeviceOf(w, key).emitted[i]);
    MessageInjective(key, r, key, DeviceOf(w, key).emitted[i]);
  }

  /** The reading a device is billed for next is the next one its key emitted. */
  lemma {:induction false} NextBilledIsNextEmitted(w: World, b: seq<Reading>, d: Address, r: Reading, sig: Signature, auth: set<Address>)
    requires SignaturesOk(w) && DevicesOk(w) && BilledOk(w, b, d)
    requires Billable(w.contract, EnvOf(w, auth), d, r, sig)
    ensures b + [r] <= DeviceOf(w, w.contract.registrations[d].pubkey).emitted
  {
    var key := w.contract.registrations[d].pubkey;
    var i := SignedWasEmitted(w, key, r);
    assert Ordered(DeviceOf(w, key));
    forall k | 0 <= k < |b| ensures DeviceOf(w, key).emitted[k].seqNo == k + 1 {
      assert DeviceOf(w, key).emitted[k] == b[k];
    }
    NextEmitted(DeviceOf(w, key), |b|, i);
  }

  lemma NoMeterForDevice(s: State, env: Env, call: Call, d: Address)
    requires !(call.Submit? && call.device == d && Accepted(s, env, call))
    ensures DeviceMeters(Invoke(s, env, call).log, d) == DeviceMeters(s.log, d)
    ensures Counter(Invoke(s, env, call), d) == Counter(s, d)
    ensures d in s.registrations ==>
              d in Invoke(s, env, call).registrations && Invoke(s, env, call).registrations[d] == s.registrations[d]
  {
    InvokeLog(s, env, call);
    if Accepted(s, env, call) {
      assert Init(Invoke(s, env, call).log) == s.log;
    }
  }

  lemma {:induction false} NoMeterStep(w: World, a: Action, d: Address)
    requires !BillsFor(w, a, d)
    ensures DeviceMeters(Step(w, a).contract.log, d) == DeviceMeters(w.contract.log, d)
    ensures Counter(Step(w, a).contract, d) == Counter(w.contract, d)
  {
    if a.Transaction? {
      NoMeterForDevice(w.contract, EnvOf(w, a.auth), a.call, d);
    }
  }

  lemma {:induction false} BilledOtherwise(w: World, a: Action, b: seq<Reading>, d: Address)
    requires BilledOk(w, b, d) && !BillsFor(w, a, d)
    ensures BilledOk(Step(w, a), b, d)
  {
    NoMeterStep(w, a, d);
    BilledFrame(w, Step(w, a), b, d) by {
      if d in w.contract.registrations {
        StepExtends(w, a, d, w.contract.registrations[d].pubkey);
      }
    }
  }

  lemma BilledFrame(w: World, w': World, b: seq<Reading>, d: Address)
    requires BilledOk(w, b, d)
    requires DeviceMeters(w'.contract.log, d) == DeviceMeters(w.contract.log, d)
    requires Counter(w'.contract, d) == Counter(w.contract, d)
    requires d in w.contract.registrations ==> Extends(w, w', d, w.contract.registrations[d].pubkey)
    ensures BilledOk(w', b, d)
  {
  }

  lemma {:induction false} BilledNow(w: World, a: Action, b: seq<Reading>, d: Address)
    requires SignaturesOk(w) && DevicesOk(w) && BilledOk(w, b, d) && BillsFor(w, a, d)
    ensures BilledOk(Step(w, a), b + [a.call.reading], d)
  {
    var w' := Step(w, a);
    NextBilledIsNextEmitted(w, b, d, a.call.reading, a.call.sig, a.auth);
    assert Init(w'.contract.log) == w.contract.log;
    assert DeviceMeters(w'.contract.log, d) == DeviceMeters(w.contract.log, d) + [Last(w'.contract.log).event];
  }

  /** Over a network that loses, repeats and reorders: the k-th reading billed for a device is
      the k-th its key emitted, with its sequence number, units and device timestamp, and each
      is billed once. */
  lemma {:induction false} BilledArePrefixOfEmitted(w: World, actions: seq<Action>, d: Address)
    requires Genesis(w)
    ensures BilledOk(Run(w, actions), BilledReadings(w, actions, d), d)
  {
    if actions != [] {
      var before := Run(w, Init(actions));
      BilledArePrefixOfEmitted(w, Init(actions), d);
      EveryRunDevices(w, Init(actions));
      if BillsFor(before, Last(actions), d) {
        BilledNow(before, Last(actions), BilledReadings(w, Init(actions), d), d);
      } else {
        BilledOtherwise(before, Last(actions), BilledReadings(w, Init(actions), d), d);
      }
    }
  }

  // ---- Cached readings are a prefix of the billed ones ----

  predicate RowOfEvent(r: Row, e: Event) {
    && e.Metered? && r.device == e.device && r.units == e.units && r.cost == e.cost
    && r.balanceAfter == e.balanceAfter && r.seqNo == e.seqNo && r.ledgerTs == e.ledgerTs
  }

  lemma {:induction false} OwnAreMeters(log: seq<Entry>, rows: seq<Row>, d: Address, p: nat)
    requires RowsArePrefix(log, rows) && p <= |log| && |Meters(log[..p])| <= |rows|
    ensures var own, events := Own(rows[..|Meters(log[..p])|], d), DeviceMeters(log[..p], d);
            |own| == |events| && forall i :: 0 <= i < |own| ==> RowOfEvent(own[i], events[i])
  {
    if p > 0 {
      MetersStep(log, p - 1);
      OwnAreMeters(log, rows, d, p - 1);
      assert Init(log[..p]) == log[..p - 1] && Last(log[..p]) == log[p - 1];
      if log[p - 1].event.Metered? {
        var n := |Meters(log[..p - 1])|;
        assert Records(rows[n], log, Meters(log)[n]);
        assert rows[..n + 1] == rows[..n] + [rows[n]];
        OwnExtend(rows[..n], rows[n], d);
      }
    }
  }

  lemma {:induction false} DeviceMetersPrefix(log: seq<Entry>, p: nat, d: Address)
    requires p <= |log|
    ensures DeviceMeters(log[..p], d) <= DeviceMeters(log, d)
  {
    if p < |log| {
      DeviceMetersPrefix(Init(log), p, d);
      assert Init(log)[..p] == log[..p];
    } else {
      assert log[..p] == log;
    }
  }

  lemma CachedArePrefixOfMeters(log: seq<Entry>, rows: seq<Row>, d: Address)
    requires RowsArePrefix(log, rows)
    ensures var own, events := Own(rows, d), DeviceMeters(log, d);
            |own| <= |events| && forall i :: 0 <= i < |own| ==> RowOfEvent(own[i], events[i])
  {
    if rows != [] {
      PlaceOfRow(log, rows, |rows| - 1);
      var p := rows[|rows| - 1].eventId + 1;
      assert rows[..|rows|] == rows;
      OwnAreMeters(log, rows, d, p);
      DeviceMetersPrefix(log, p, d);
    }
  }

  /** Device, contract and cache in one line: at every moment of every run, what is cached for a
      device is a prefix of what was billed for it, which is a prefix of what its key emitted. */
  lemma {:induction false} EmittedBilledCached(w: World, actions: seq<Action>, d: Address)
    requires Genesis(w) && d in Run(w, actions).contract.registrations
    ensures var w' := Run(w, actions);
            var emitted := DeviceOf(w', w'.contract.registrations[d].pubkey).emitted;
            var billed, cached := BilledReadings(w, actions, d), Own(w'.cache.rows, d);
            && |cached| <= |billed| <= |emitted|
            && (forall i :: 0 <= i < |billed| ==> billed[i] == emitted[i])
            && (forall i :: 0 <= i < |cached| ==>
                  cached[i].seqNo == emitted[i].seqNo == i + 1 && cached[i].units == emitted[i].delta)
  {
    CacheIsPrefixAlways(w, actions);
    BilledArePrefixOfEmitted(w, actions, d);
    var w' := Run(w, actions);
    CachedArePrefixOfMeters(w'.contract.log, w'.cache.rows, d);
    var events, billed := DeviceMeters(w'.contract.log, d), BilledReadings(w, actions, d);
    forall i | 0 <= i < |Own(w'.cache.rows, d)|
      ensures Own(w'.cache.rows, d)[i].seqNo == billed[i].seqNo == i + 1
      ensures Own(w'.cache.rows, d)[i].units == billed[i].delta
    {
      assert RowOfEvent(Own(w'.cache.rows, d)[i], events[i]);
    }
  }

  // ---- What is served was true ----

  /** The chain passes through every prefix of its final log. */
  lemma {:induction false} PrefixReached(w: World, actions: seq<Action>, p: nat) returns (j: nat)
    requires |w.contract.log| <= p <= |Run(w, actions).contract.log|
    ensures j <= |actions| && Run(w, actions[..j]).contract.log == Run(w, actions).contract.log[..p]
  {
    if p == |Run(w, actions).contract.log| {
      j := |actions|;
      assert actions[..j] == actions;
    } else {
      var before := Run(w, Init(actions));
      StepExtends(before, Last(actions), SELF, SomeKey());
      j := PrefixReached(w, Init(actions), p);
      assert Init(actions)[..j] == actions[..j];
    }
  }

  /** The served answer is what these ledgers' getters return for the device. */
  predicate Answers(b: BalanceView, s: State, d: Address) {
    && d in s.registrations && d in s.deposits && d in s.readings
    && b.onChainBalance == Some(s.deposits[d])
    && b.latestSeq == s.readings[d].lastSeq
    && b.totalUnits == s.readings[d].cumulativeUnits
    && AccountOf(s.log, d).Account? && b.totalBilled == AccountOf(s.log, d).billed
  }

  lemma AnswersAccount(b: BalanceView, s: State, d: Address)
    requires LogDetermines(s)
    ensures Answers(b, s, d) ==> Shows(b, AccountOf(s.log, d))
    ensures Shows(b, AccountOf(s.log, d)) && 0 < b.latestSeq ==> Answers(b, s, d)
  {
    assert DeviceAgrees(s, d);
  }

  /** Every visit in every state of every run: its first query saw the table of one moment, its
      second one the table of a later moment. */
  lemma {:induction false} VisitReads(w: World, actions: seq<Action>, id: nat) returns (first: nat, second: nat)
    requires Genesis(w) && id in Run(w, actions).visits
    ensures first <= second <= |actions|
    ensures VisitIs(Run(w, actions).visits[id],
                    Run(w, actions[..first]).cache.rows, Run(w, actions[..second]).cache.rows)
  {
    var front, last := Run(w, Init(actions)), Last(actions);
    if id in front.visits && front.visits[id] == Run(w, actions).visits[id] {
      first, second := VisitReads(w, Init(actions), id);
      assert Init(actions)[..first] == actions[..first] && Init(actions)[..second] == actions[..second];
    } else if last.VisitAwait? {
      first, second := VisitReads(w, Init(actions), id);
      assert Init(actions)[..first] == actions[..first] && Init(actions) == actions[..|actions| - 1];
      if front.visits[id].Asked? {
        first := |actions| - 1;
      }
      second := |actions| - 1;
    } else {
      first, second := 0, 0;
    }
  }

  lemma CacheGrows(w: World, actions: seq<Action>, i: nat, j: nat)
    requires i <= j <= |actions|
    ensures Run(w, actions[..i]).cache.rows <= Run(w, actions[..j]).cache.rows
  {
    assert actions[..j] == actions[..i] + actions[i..j];
    RunAppend(w, actions[..i], actions[i..j]);
    RunExtends(Run(w, actions[..i]), actions[i..j], SELF, SomeKey());
  }

  lemma LogAt(w: World, actions: seq<Action>, j: nat)
    requires j <= |actions|
    ensures var earlier, log := Run(w, actions[..j]).contract.log, Run(w, actions).contract.log;
            |earlier| <= |log| && log[..|earlier|] == earlier
  {
    assert actions == actions[..j] + actions[j..];
    RunAppend(w, actions[..j], actions[j..]);
    RunExtends(Run(w, actions[..j]), actions[j..], SELF, SomeKey());
  }

  /** The run passed through a moment with this account exactly when the log did. */
  lemma MomentsOfLog(w: World, actions: seq<Action>, b: BalanceView, d: Address)
    requires Genesis(w) && 0 < b.latestSeq
    ensures (exists j: nat :: j <= |actions| && Answers(b, Run(w, actions[..j]).contract, d))
            <==> exists q: nat :: q <= |Run(w, actions).contract.log|
                                  && Shows(b, AccountOf(Run(w, actions).contract.log[..q], d))
  {
    var log := Run(w, actions).contract.log;
    forall j: nat | j <= |actions| && Answers(b, Run(w, actions[..j]).contract, d)
      ensures exists q: nat :: q <= |log| && Shows(b, AccountOf(log[..q], d))
    {
      var s := Run(w, actions[..j]).contract;
      LogAt(w, actions, j);
      EveryRunLog(w, actions[..j]);
      AnswersAccount(b, s, d);
      assert Shows(b, AccountOf(log[..|s.log|], d));
    }
    if q: nat :| q <= |log| && Shows(b, AccountOf(log[..q], d)) {
      var j := PrefixReached(w, actions, q);
      EveryRunLog(w, actions[..j]);
      AnswersAccount(b, Run(w, actions[..j]).contract, d);
    }
  }

  /** Own rows at two moments of a run, against the chain at its end. */
  lemma {:induction false} TwoReads(w: World, actions: seq<Action>, first: nat, second: nat)
    requires Genesis(w) && first <= second <= |actions|
    ensures LogTrue(Run(w, actions).contract.log)
    ensures RowsArePrefix(Run(w, actions).contract.log, Run(w, actions[..second]).cache.rows)
    ensures Run(w, actions[..first]).cache.rows <= Run(w, actions[..second]).cache.rows
  {
    EveryRunLog(w, actions);
    CacheIsPrefixAlways(w, actions);
    CacheGrows(w, actions, first, second);
    CacheGrows(w, actions, second, |actions|);
    assert actions[..|actions|] == actions;
  }

  /** What the balance route has answered, in any state of any run. Balance and totals are what
      the contract's getters gave at one earlier moment, together with sequence k; the sequence
      served is the l the second query saw. The answer as a whole is what the getters gave at
      some moment exactly when k = l: no row of the device was ingested between the queries. */
  lemma {:induction false} ServedBalanceWasOnChain(w: World, actions: seq<Action>, id: nat) returns (first: nat, second: nat)
    requires Genesis(w) && id in Run(w, actions).visits && Run(w, actions).visits[id].BalanceAnswered?
    ensures first <= second <= |actions|
    ensures var answer := Run(w, actions).visits[id];
            ServedAs(w, actions, answer.view, answer.device,
                     Run(w, actions[..first]).cache.rows, Run(w, actions[..second]).cache.rows)
  {
    first, second := VisitReads(w, actions, id);
    var answer := Run(w, actions).visits[id];
    ReadsServe(w, actions, answer.device, first, second);
  }

  ghost predicate ServedAs(w: World, actions: seq<Action>, b: BalanceView, d: Address,
                           seen: seq<Row>, seenLater: seq<Row>)
  {
    var k, l := |Own(seen, d)|, |Own(seenLater, d)|;
    && k <= l && b.latestSeq == l
    && if k == 0 then b == BalanceView(None, l, 0, 0, None)
       else
         && WasOnChain(w, actions, b.(latestSeq := k), d)
         && (WasOnChain(w, actions, b, d) <==> k == l)
  }

  ghost predicate WasOnChain(w: World, actions: seq<Action>, b: BalanceView, d: Address) {
    exists j: nat :: j <= |actions| && Answers(b, Run(w, actions[..j]).contract, d)
  }

  lemma ReadsServe(w: World, actions: seq<Action>, d: Address, first: nat, second: nat)
    requires Genesis(w) && first <= second <= |actions|
    ensures var r1, r2 := Run(w, actions[..first]).cache.rows, Run(w, actions[..second]).cache.rows;
            ServedAs(w, actions, Balance(r1, r2, d), d, r1, r2)
  {
    TwoReads(w, actions, first, second);
    RowsServe(w, actions, d, Run(w, actions[..first]).cache.rows, Run(w, actions[..second]).cache.rows);
  }

  lemma RowsServe(w: World, actions: seq<Action>, d: Address, r1: seq<Row>, r2: seq<Row>)
    requires Genesis(w) && r1 <= r2
    requires LogTrue(Run(w, actions).contract.log) && RowsArePrefix(Run(w, actions).contract.log, r2)
    ensures ServedAs(w, actions, Balance(r1, r2, d), d, r1, r2)
  {
    var log, b := Run(w, actions).contract.log, Balance(r1, r2, d);
    var _ := BalanceIsContractThen(log, r1, r2, d);
    OwnOfPrefix(r1, r2, d);
    if Own(r1, d) != [] {
      var _ := ShowsAMomentExactly(log, r1, r2, d);
      MomentsOfLog(w, actions, b, d);
      MomentsOfLog(w, actions, b.(latestSeq := |Own(r1, d)|), d);
    }
  }

  /** What the metrics route has answered, in any state of any run: the series adds up to the
      samples beside it exactly when no matching row was ingested between the two queries. */
  lemma ServedMetrics(w: World, actions: seq<Action>, id: nat) returns (first: nat, second: nat)
    requires Genesis(w) && id in Run(w, actions).visits && Run(w, actions).visits[id].MetricsAnswered?
    ensures first <= second <= |actions|
    ensures var answer := Run(w, actions).visits[id];
            var r1, r2 := Run(w, actions[..first]).cache.rows, Run(w, actions[..second]).cache.rows;
            && r1 <= r2
            && Series.SeriesUnits(answer.series) == TotalUnits(Matching(answer.query, r2))
            && TotalUnits(answer.samples) == TotalUnits(Matching(answer.query, r1))
            && (Series.SeriesMatches(answer.series, answer.samples)
                <==> Matching(answer.query, r2[|r1|..]) == [])
  {
    first, second := VisitReads(w, actions, id);
    CacheGrows(w, actions, first, second);
    var answer := Run(w, actions).visits[id];
    var r1, r2 := Run(w, actions[..first]).cache.rows, Run(w, actions[..second]).cache.rows;
    assert r2 == r1 + r2[|r1|..];
    Series.MetricsRouteAgrees(r1, r2[|r1|..], answer.query, answer.granularity);
    Series.SeriesAddsUp(r2, answer.query, answer.granularity);
    Series.SampleTotals(r1, answer.query);
  }

  // ---- A reading refused for lack of funds is not lost ----

  /** A signed reading that was refused only for insufficient balance stays billable: after any
      further run, either this very reading has been billed meanwhile, or it is still the
      expected one, and it is billed exactly when the deposit covers it (and the totals fit). */
  lemma InsufficientBalanceIsNotFinal(w: World, a1: seq<Action>, a2: seq<Action>, d: Address, r: Reading,
                                      sig: Signature, auth1: set<Address>, auth2: set<Address>)
    requires Genesis(w)
    requires var w1 := Run(w, a1);
             SubmitRefusal(w1.contract, EnvOf(w1, auth1), d, r, sig) == Err(InsufficientBalance)
    ensures var w2 := Run(w, a1 + a2); var s := w2.contract;
            && d in s.registrations && d in s.tariffs && d in s.deposits
            && if r.seqNo <= Counter(s, d).lastSeq
               then && r.seqNo <= |BilledReadings(w, a1 + a2, d)|
                    && BilledReadings(w, a1 + a2, d)[r.seqNo - 1] == r
               else && r.seqNo == Counter(s, d).lastSeq + 1
                    && (Billable(s, EnvOf(w2, auth2), d, r, sig) <==>
                          Cost(s, d, r) <= s.deposits[d] && Fits(s, d, r))
  {
    var w1, w2 := Run(w, a1), Run(w, a1 + a2);
    RunAppend(w, a1, a2);
    EveryRunLog(w, a1);
    EveryRunLog(w, a1 + a2);
    EveryRunDevices(w, a1 + a2);
    var key := w1.contract.registrations[d].pubkey;
    RunExtends(w1, a2, d, key);
    assert d in w1.contract.tariffs;
    assert DeviceAgrees(w2.contract, d) && DeviceAgrees(w1.contract, d);
    SequenceGrows(w1, w2, d);
    if r.seqNo <= Counter(w2.contract, d).lastSeq {
      BilledArePrefixOfEmitted(w, a1 + a2, d);
      SignedIsUnique(w2, key, r);
      var billed, emitted := BilledReadings(w, a1 + a2, d), DeviceOf(w2, key).emitted;
      assert billed[r.seqNo - 1] == emitted[r.seqNo - 1];
    }
  }

  lemma SequenceGrows(w1: World, w2: World, d: Address)
    requires DeviceAgrees(w1.contract, d) && DeviceAgrees(w2.contract, d) && LogTrue(w2.contract.log)
    requires w1.contract.log <= w2.contract.log
    ensures Counter(w1.contract, d).lastSeq <= Counter(w2.contract, d).lastSeq
  {
    assert w2.contract.log[..|w1.contract.log|] == w1.contract.log;
    if AccountOf(w1.contract.log, d).Account? {
      RegistrationIsFinal(w2.contract.log, |w1.contract.log|, d);
    }
  }

  /** A key signs at most one reading per sequence number. */
  lemma SignedIsUnique(w: World, key: PubKey, r: Reading)
    requires SignaturesOk(w) && DevicesOk(w) && (key, Message(key, r)) in w.signed
    ensures forall i :: 0 <= i < |DeviceOf(w, key).emitted| && DeviceOf(w, key).emitted[i].seqNo == r.seqNo
              ==> DeviceOf(w, key).emitted[i] == r
  {
    var i := SignedWasEmitted(w, key, r);
    assert Ordered(DeviceOf(w, key));
  }

  /** The price of an emit() that raises: once a number is skipped, the readings after it are
      signed and delivered in vain, whatever happens later. */
  lemma SkippedNumberBlocks(w: World, a1: seq<Action>, a2: seq<Action>, d: Address, n: nat)
    requires Genesis(w) && d in Run(w, a1).contract.registrations
    requires var emitted := DeviceOf(Run(w, a1), Run(w, a1).contract.registrations[d].pubkey).emitted;
             n < |emitted| && emitted[n].seqNo != n + 1
    ensures |BilledReadings(w, a1 + a2, d)| <= n
  {
    var w1 := Run(w, a1);
    RunAppend(w, a1, a2);
    RunExtends(w1, a2, d, w1.contract.registrations[d].pubkey);
    BilledArePrefixOfEmitted(w, a1 + a2, d);
  }

  // ---- Exactly when a device is stuck ----

  /** An emit() of this key that raises, before the call: a value does not fit eight bytes. */
  predicate Raises(w: World, a: Action, key: PubKey) {
    && a.Emit? && a.key == key
    && (DeviceOf(w, key).seqNo >= U64_MAX || a.ticks > U64_MAX || a.ts > U64_MAX)
  }

  ghost predicate NoneRaised(w: World, actions: seq<Action>, key: PubKey) {
    forall i: nat :: i < |actions| ==> !Raises(Run(w, actions[..i]), actions[i], key)
  }

  lemma NoneRaisedStep(w: World, actions: seq<Action>, key: PubKey)
    requires actions != []
    ensures NoneRaised(w, actions, key) <==>
              NoneRaised(w, Init(actions), key) && !Raises(Run(w, Init(actions)), Last(actions), key)
  {
    var front := Init(actions);
    assert actions[..|front|] == front;
    assert forall i: nat :: i < |front| ==> actions[..i] == front[..i];
    if NoneRaised(w, actions, key) {
      forall i: nat | i < |front| ensures !Raises(Run(w, front[..i]), front[i], key) {
        assert !Raises(Run(w, actions[..i]), actions[i], key);
      }
      assert !Raises(Run(w, actions[..|front|]), actions[|front|], key);
    }
  }

  /** Only its own emit() changes a device; what it adds is signed at once. */
  lemma DeviceAfter(w: World, a: Action, key: PubKey)
    ensures var before, after := DeviceOf(w, key), DeviceOf(Step(w, a), key);
            && after == (if a.Emit? && a.key == key then EmitStep(before, a.ticks, a.ts) else before)
            && w.signed <= Step(w, a).signed
            && (|before.emitted| < |after.emitted| ==> (key, Message(key, Last(after.emitted))) in Step(w, a).signed)
  {
  }

  /** The counter is ahead of the signed readings exactly when some emit() raised. */
  lemma {:induction false} CounterAheadExactly(w: World, actions: seq<Action>, key: PubKey)
    requires Genesis(w)
    ensures var dev := DeviceOf(Run(w, actions), key);
            |dev.emitted| <= dev.seqNo && (|dev.emitted| == dev.seqNo <==> NoneRaised(w, actions, key))
  {
    if actions != [] {
      CounterAheadExactly(w, Init(actions), key);
      NoneRaisedStep(w, actions, key);
      DeviceAfter(Run(w, Init(actions)), Last(actions), key);
    }
  }

  lemma {:induction false} EmittedAreSigned(w: World, actions: seq<Action>, key: PubKey)
    requires Genesis(w)
    ensures forall r :: r in DeviceOf(Run(w, actions), key).emitted ==> (key, Message(key, r)) in Run(w, actions).signed
  {
    if actions != [] {
      EmittedAreSigned(w, Init(actions), key);
      DeviceAfter(Run(w, Init(actions)), Last(actions), key);
    }
  }

  /** The emission that signed a reading. */
  lemma {:induction false} EmittedBy(w: World, actions: seq<Action>, key: PubKey, n: nat) returns (j: nat)
    requires Genesis(w) && n < |DeviceOf(Run(w, actions), key).emitted|
    ensures j < |actions| && actions[j].Emit? && actions[j].key == key
    ensures var before := DeviceOf(Run(w, actions[..j]), key);
            |before.emitted| == n && DeviceOf(Run(w, actions), key).emitted[n].seqNo == before.seqNo + 1
  {
    var front, last := Init(actions), Last(actions);
    if n < |DeviceOf(Run(w, front), key).emitted| {
      j := EmittedBy(w, front, key, n);
      assert front[..j] == actions[..j];
      DeviceAfter(Run(w, front), last, key);
    } else {
      j := |front|;
      assert actions[..j] == front;
      DeviceAfter(Run(w, front), last, key);
    }
  }

  /** A device with signed readings still to be billed: the next of them may be presented, and
      then needs nothing but funds, exactly when no emit() before it raised. Otherwise neither
      it nor any later reading is billed, whatever happens next. */
  lemma NextReadingExactly(w: World, actions: seq<Action>, more: seq<Action>, d: Address, auth: set<Address>)
    returns (j: nat)
    requires Genesis(w) && d in Run(w, actions).contract.registrations
    requires var w' := Run(w, actions);
             Counter(w'.contract, d).lastSeq < |DeviceOf(w', w'.contract.registrations[d].pubkey).emitted|
    ensures j < |actions|
    ensures var w' := Run(w, actions); var key := w'.contract.registrations[d].pubkey;
            var n := Counter(w'.contract, d).lastSeq; var next := DeviceOf(w', key).emitted[n];
            && actions[j].Emit? && actions[j].key == key && |DeviceOf(Run(w, actions[..j]), key).emitted| == n
            && (Presentable(w'.contract, EnvOf(w', auth), d, next, Signature(key, Message(key, next)))
                <==> NoneRaised(w, actions[..j], key))
            && (!NoneRaised(w, actions[..j], key) ==> |BilledReadings(w, actions + more, d)| == n)
  {
    var w' := Run(w, actions);
    var key := w'.contract.registrations[d].pubkey;
    var n := Counter(w'.contract, d).lastSeq;
    j := EmittedBy(w, actions, key, n);
    CounterAheadExactly(w, actions[..j], key);
    NextPresentable(w, actions, d, auth);
    if !NoneRaised(w, actions[..j], key) {
      SkippedNumberBlocks(w, actions, more, d, n);
      BilledOnly(w, actions, more, d);
    }
  }

  lemma NextPresentable(w: World, actions: seq<Action>, d: Address, auth: set<Address>)
    requires Genesis(w) && d in Run(w, actions).contract.registrations
    requires var w' := Run(w, actions);
             Counter(w'.contract, d).lastSeq < |DeviceOf(w', w'.contract.registrations[d].pubkey).emitted|
    ensures var w' := Run(w, actions); var key := w'.contract.registrations[d].pubkey;
            var n := Counter(w'.contract, d).lastSeq; var next := DeviceOf(w', key).emitted[n];
            Presentable(w'.contract, EnvOf(w', auth), d, next, Signature(key, Message(key, next)))
            <==> next.seqNo == n + 1
  {
    var w' := Run(w, actions);
    var key := w'.contract.registrations[d].pubkey;
    EveryRunDevices(w, actions);
    EmittedAreSigned(w, actions, key);
    assert Ordered(DeviceOf(w', key));
    DeviceIsBillable(w, actions, d);
  }

  lemma {:induction false} DeviceIsBillable(w: World, actions: seq<Action>, d: Address)
    requires Genesis(w) && d in Run(w, actions).contract.registrations
    ensures var s := Run(w, actions).contract;
            s.registrations[d].status == Active && d in s.tariffs && 0 <= s.tariffs[d] && d in s.deposits
  {
    EveryRun(w, actions);
    var s := Run(w, actions).contract;
    assert s.registrations.Keys == s.tariffs.Keys == s.deposits.Keys;
    assert d in s.registrations.Keys;
  }

  /** Billed readings are never taken back. */
  lemma BilledOnly(w: World, actions: seq<Action>, more: seq<Action>, d: Address)
    requires Genesis(w)
    ensures Counter(Run(w, actions).contract, d).lastSeq <= |BilledReadings(w, actions + more, d)|
  {
    RunAppend(w, actions, more);
    RunExtends(Run(w, actions), more, d, SomeKey());
    EveryRunLog(w, actions);
    EveryRunLog(w, actions + more);
    assert DeviceAgrees(Run(w, actions).contract, d) && DeviceAgrees(Run(w, actions + more).contract, d);
    SequenceGrows(Run(w, actions), Run(w, actions + more), d);
    BilledArePrefixOfEmitted(w, actions + more, d);
  }

  // ---- What is billed is what was measured ----

  /** The ticks and times of the emit() calls of this key that did not raise, in order. */
  ghost function Measured(w: World, actions: seq<Action>, key: PubKey): seq<(int, nat)> {
    if actions == [] then []
    else
      var a := Last(actions);
      if a.Emit? && a.key == key && !Raises(Run(w, Init(actions)), a, key)
      then Measured(w, Init(actions), key) + [(a.ticks, a.ts)]
      else Measured(w, Init(actions), key)
  }

  /** A reading of these ticks at this time; a device that measured nothing reports one unit. */
  predicate Reports(r: Reading, m: (int, nat)) {
    r.delta == (if m.0 >= 1 then m.0 else 1) && r.timestamp == m.1
  }

  lemma {:induction false} EmittedIsMeasured(w: World, actions: seq<Action>, key: PubKey)
    requires Genesis(w)
    ensures var emitted, m := DeviceOf(Run(w, actions), key).emitted, Measured(w, actions, key);
            |emitted| == |m| && forall k :: 0 <= k < |m| ==> Reports(emitted[k], m[k])
  {
    if actions != [] {
      EmittedIsMeasured(w, Init(actions), key);
      DeviceAfter(Run(w, Init(actions)), Last(actions), key);
    }
  }

  /** The k-th reading billed for a device carries the units and the time of its key's k-th
      measurement that was signed, and so does the k-th cached row, priced at the tariff. */
  lemma BilledIsMeasured(w: World, actions: seq<Action>, d: Address)
    requires Genesis(w) && d in Run(w, actions).contract.registrations && d in Run(w, actions).contract.tariffs
    ensures var w' := Run(w, actions);
            var m := Measured(w, actions, w'.contract.registrations[d].pubkey);
            var billed, cached := BilledReadings(w, actions, d), Own(w'.cache.rows, d);
            && |cached| <= |billed| <= |m|
            && (forall k :: 0 <= k < |billed| ==> Reports(billed[k], m[k]))
            && (forall k :: 0 <= k < |cached| ==>
                  && cached[k].units == (if m[k].0 >= 1 then m[k].0 else 1)
                  && cached[k].cost == cached[k].units * w'.contract.tariffs[d])
  {
    var w' := Run(w, actions);
    EmittedBilledCached(w, actions, d);
    EmittedIsMeasured(w, actions, w'.contract.registrations[d].pubkey);
    EveryRunLog(w, actions);
    CacheIsPrefixAlways(w, actions);
    assert DeviceAgrees(w'.contract, d);
    CachedArePrefixOfMeters(w'.contract.log, w'.cache.rows, d);
    MetersPriced(w'.contract.log, d);
    var cached, events := Own(w'.cache.rows, d), DeviceMeters(w'.contract.log, d);
    forall k | 0 <= k < |cached| ensures cached[k].cost == cached[k].units * w'.contract.tariffs[d] {
      assert RowOfEvent(cached[k], events[k]) && Priced(events[k], AccountOf(w'.contract.log, d));
    }
  }

  predicate Priced(e: Event, a: Account) {
    e.Metered? && a.Account? && e.cost == e.units * a.rate
  }

  lemma {:induction false} MetersPriced(log: seq<Entry>, d: Address)
    requires LogTrue(log)
    ensures forall k :: 0 <= k < |DeviceMeters(log, d)| ==> Priced(DeviceMeters(log, d)[k], AccountOf(log, d))
  {
    if log != [] {
      var front, e := Init(log), Last(log).event;
      LogTruePrefix(log, |log| - 1);
      MetersPriced(front, d);
      assert EntryTrue(log[..|log| - 1], log[|log| - 1].event);
      forall k | 0 <= k < |DeviceMeters(log, d)| ensures Priced(DeviceMeters(log, d)[k], AccountOf(log, d)) {
        if k < |DeviceMeters(front, d)| {
          assert Priced(DeviceMeters(front, d)[k], AccountOf(front, d));
        } else {
          assert Priced(e, AccountOf(front, d));
        }
      }
    }
  }

  // ---- Where a cached row comes from ----

  /** Each cached row is the whole billing event at its place on the chain, with the ledger that
      holds it, and bears the wall clock of the very await that brought it in. */
  lemma {:induction false} CachedRowIs(w: World, actions: seq<Action>, k: nat) returns (j: nat)
    requires Genesis(w) && k < |Run(w, actions).cache.rows|
    ensures var r, log := Run(w, actions).cache.rows[k], Run(w, actions).contract.log;
            && r.eventId < |log| && log[r.eventId].ledger == r.ledger
            && RowOfEvent(r, log[r.eventId].event)
    ensures j < |actions| && actions[j].Await? && actions[j].stamp == Run(w, actions).cache.rows[k].emittedAt
    ensures |Run(w, actions[..j]).cache.rows| == k
  {
    CacheIsPrefixAlways(w, actions);
    var rows, log := Run(w, actions).cache.rows, Run(w, actions).contract.log;
    assert Records(rows[k], log, Meters(log)[k]);
    j := BroughtIn(w, actions, k);
  }

  lemma {:induction false} BroughtIn(w: World, actions: seq<Action>, k: nat) returns (j: nat)
    requires Genesis(w) && k < |Run(w, actions).cache.rows|
    ensures j < |actions| && actions[j].Await? && actions[j].stamp == Run(w, actions).cache.rows[k].emittedAt
    ensures |Run(w, actions[..j]).cache.rows| == k
  {
    var front := Init(actions);
    RowsAfter(Run(w, front), Last(actions));
    if k < |Run(w, front).cache.rows| {
      j := BroughtIn(w, front, k);
      assert front[..j] == actions[..j];
    } else {
      j := |front|;
      assert actions[..j] == front;
    }
  }

  /** One action adds at most one row, and the clock it shows is that action's. */
  lemma RowsAfter(w: World, a: Action)
    ensures var before, after := w.cache.rows, Step(w, a).cache.rows;
            after == before || (a.Await? && |after| == |before| + 1 && Init(after) == before && Last(after).emittedAt == a.stamp)
  {
  }

  // ---- Who must have agreed ----

  /** In every state of every run, whatever is called next. */
  lemma AuthorityAlways(w: World, actions: seq<Action>, call: Call, auth: set<Address>, a: Address)
    requires Genesis(w)
    ensures var before, after := Run(w, actions).contract, Run(w, actions + [Transaction(call, auth)]).contract;
            && (a != SELF && Get(after.wallets, a) < Get(before.wallets, a) ==> a in auth)
            && (Get(after.deposits, a) > Get(before.deposits, a) ==> a in auth)
            && (OperatorLedger(after, a).totalSettled != OperatorLedger(before, a).totalSettled ==> a in auth)
            && Sum(after.wallets) == Sum(before.wallets)
  {
    EveryRun(w, actions);
    RunSnoc(w, actions, Transaction(call, auth));
    var now := Run(w, actions);
    Effects.AuthorityNeeded(now.contract, EnvOf(now, auth), call, a);
    Effects.SupplyStays(now.contract, EnvOf(now, auth), call);
  }

  /** Every registered device, and the operator it is registered with, once agreed to it. */
  lemma {:induction false} RegisteredByAuthority(w: World, actions: seq<Action>, d: Address) returns (j: nat)
    requires Genesis(w) && d in Run(w, actions).contract.registrations
    ensures j < |actions| && actions[j].Transaction? && d in actions[j].auth
    ensures Run(w, actions).contract.registrations[d].operator in actions[j].auth
  {
    var front, a := Init(actions), Last(actions);
    if d in Run(w, front).contract.registrations {
      j := RegisteredByAuthority(w, front, d);
      StepExtends(Run(w, front), a, d, SomeKey());
    } else {
      j := |front|;
      EveryRun(w, front);
      assert actions[j] == a;
      RegisteredNow(Run(w, front), a, d);
    }
  }

  lemma RegisteredNow(w: World, a: Action, d: Address)
    requires WellKept(w.contract) && d !in w.contract.registrations && d in Step(w, a).contract.registrations
    ensures a.Transaction? && {d, Step(w, a).contract.registrations[d].operator} <= a.auth
  {
    if a.Transaction? {
      Effects.AuthorityNeeded(w.contract, EnvOf(w, a.auth), a.call, d);
    }
  }

  /** One reading too large for eight bytes, and the device is never billed again: here from
      any fresh deployment, before its first reading. */
  function TooManyTicks(d: Address, o: Address, key: PubKey): seq<Action> {
    [Transaction(Register(d, key, o, 1), {d, o}), Emit(key, U64_MAX + 1, 0), Emit(key, 1, 0)]
  }

  lemma SkippedForGood(w: World, d: Address, o: Address, key: PubKey, more: seq<Action>)
    requires Genesis(w) && d != SELF && o != SELF
    ensures DeviceOf(Run(w, TooManyTicks(d, o, key)), key).emitted == [Reading(2, 1, 0)]
    ensures BilledReadings(w, TooManyTicks(d, o, key) + more, d) == []
  {
    var a := TooManyTicks(d, o, key);
    RunThree(w, a);
    var w1 := Step(w, a[0]);
    assert DeviceOf(w1, key) == Device(0, []);
    assert DeviceOf(Step(w1, a[1]), key) == Device(1, []);
    SkippedNumberBlocks(w, a, more, d, 0);
  }

  // ---- Solvency, over runs ----

  /** After any run, claims of any operators in any order are all paid exactly when each
      operator's claims together stay within its unpaid earnings, and then each has received
      exactly its claims; no deposit moves, all deposits stay backed, and no token is lost. */
  lemma SolventAlways(w: World, actions: seq<Action>, env: Env, claims: seq<Claim>)
    requires Genesis(w)
    requires forall i :: 0 <= i < |claims| ==> Authorized(env, claims[i].operator) && 0 < claims[i].amount
    ensures var s := Run(w, actions).contract; var paid := SettleAll(s, env, claims);
            && (AllSettle(s, env, claims) <==>
                  forall o: Address :: Claimed(claims, o) <= Earned(s.log, o) - PaidOut(s.log, o))
            && paid.deposits == s.deposits && Sum(s.deposits) <= Held(paid)
            && Sum(paid.wallets) == Sum(s.wallets)
            && (AllSettle(s, env, claims) ==>
                  forall o: Address :: o != SELF ==> Get(paid.wallets, o) == Get(s.wallets, o) + Claimed(claims, o))
  {
    EveryRun(w, actions);
    var s := Run(w, actions).contract;
    ClaimsSettle(s, env, claims, Run(w, actions).donated);
    forall o: Address ensures Withdrawable(s, o) == Earned(s.log, o) - PaidOut(s.log, o) {
      assert OperatorAgrees(s, o);
    }
  }

  // ---- The caught-up listing, over runs ----

  /** When nothing is left uncached, the device listing and the operators' ledgers show the same
      money: in total, and for each operator over its own devices. */
  lemma {:induction false} CaughtUpCacheMatchesEarnings(w: World, actions: seq<Action>, o: Address)
    requires Genesis(w)
    requires |Run(w, actions).cache.rows| == |Meters(Run(w, actions).contract.log)|
    ensures var w' := Run(w, actions); var list := ListDevices(w'.cache.rows);
            && Sum(Costs(list)) == Sum(EarnedLedger(w'.contract.operators))
            && Sum(CostsUnder(list, w'.contract.log, o)) == OperatorLedger(w'.contract, o).totalEarned
  {
    EveryRunLog(w, actions);
    CacheIsPrefixAlways(w, actions);
    var w' := Run(w, actions);
    CaughtUpTotals(w'.contract, w'.cache.rows);
    CaughtUpListing(w'.contract.log, w'.cache.rows, o);
    assert OperatorAgrees(w'.contract, o);
  }
}
