/** What a captured signature is good for. */
module Replay {
  import opened Codec
  import opened Billing
  import opened Emulator
  import opened World
  import opened EndToEnd
  import opened Scenario

  /** A signature verifies for one key and one reading only. */
  lemma SignatureFitsOneReading(env: Env, sig: Signature, k1: PubKey, r1: Reading, k2: PubKey, r2: Reading)
    requires Genuine(env, k1, r1, sig) && Genuine(env, k2, r2, sig)
    ensures k1 == k2 && r1 == r2
  {
    MessageInjective(k1, r1, k2, r2);
  }

  /** Billing a reading makes the same submission unbillable for that device, at once and for
      as long as the sequence counter does not fall. */
  lemma NoReplayOnSameDevice(s: State, env: Env, later: State, env': Env, d: Address, r: Reading, sig: Signature)
    requires Billable(s, env, d, r, sig)
    requires Counter(Billed(s, env, d, r, sig), d).lastSeq <= Counter(later, d).lastSeq
    ensures !Billable(later, env', d, r, sig)
    ensures d in later.registrations && later.registrations[d].status == Active ==>
              SubmitRefusal(later, env', d, r, sig) in {Err(InvalidSequence), Err(Overflow)}
  {
  }

  /** Across devices, over runs: a submission billable for a is billable for b at any later
      moment exactly when b was registered with the very same key and b's own sequence, deposit
      and limits admit it. With one key per device a captured signature is worth nothing
      elsewhere, ever. */
  lemma {:induction false} ReplayNeedsSharedKey(w: World, actions: seq<Action>, more: seq<Action>, a: Address, b: Address,
                             r: Reading, sig: Signature, auth: set<Address>, auth': set<Address>)
    requires Genesis(w)
    requires Billable(Run(w, actions).contract, EnvOf(Run(w, actions), auth), a, r, sig)
    ensures var later := Run(w, actions + more); var s := later.contract;
            && a in s.registrations
            && (Billable(s, EnvOf(later, auth'), b, r, sig) <==>
                  && b in s.registrations && b in s.tariffs && b in s.deposits
                  && s.registrations[b].pubkey == s.registrations[a].pubkey
                  && r.seqNo == Counter(s, b).lastSeq + 1
                  && Cost(s, b, r) <= s.deposits[b] && Fits(s, b, r))
  {
    var w1, later := Run(w, actions), Run(w, actions + more);
    RunAppend(w, actions, more);
    var key := w1.contract.registrations[a].pubkey;
    RunExtends(w1, more, a, key);
    if b in later.contract.registrations {
      DeviceIsBillable(w, actions + more, b);
      if Genuine(EnvOf(later, auth'), later.contract.registrations[b].pubkey, r, sig) {
        SignatureFitsOneReading(EnvOf(later, auth'), sig, key, r, later.contract.registrations[b].pubkey, r);
      }
    }
  }

  // ---- One key, two devices ----

  /** Two devices registered with one key, both funded. */
  predicate Shared(w: World) {
    && Stands(w.contract, DEVICE, 5, 0) && Stands(w.contract, TWIN, 5, 0)
    && OperatorLedger(w.contract, OPERATOR).totalEarned == 0 && DeviceOf(w, SomeKey()) == Device(0, [])
  }

  lemma BothOpen()
    ensures Shared(Run(Fresh(), Open(DEVICE) + Open(TWIN)))
  {
    OpenSteps(Fresh(), DEVICE, TWIN);
    var w := Run(Fresh(), Open(DEVICE));
    RunOn(Fresh(), Open(DEVICE), w, Open(TWIN));
    OpenSteps(w, TWIN, DEVICE);
  }

  function OneForBoth(): seq<Action> {
    [Emit(SomeKey(), 1, 0), SubmitNo(DEVICE, 1), SubmitNo(TWIN, 1)]
  }

  lemma SubmitForBoth(w: World)
    requires Stands(w.contract, DEVICE, 5, 0) && Stands(w.contract, TWIN, 5, 0)
    requires OperatorLedger(w.contract, OPERATOR).totalEarned == 0
    requires (SomeKey(), Message(SomeKey(), ReadingNo(1))) in w.signed
    ensures var e := Step(Step(w, SubmitNo(DEVICE, 1)), SubmitNo(TWIN, 1));
            && e.devices == w.devices && Stands(e.contract, DEVICE, 4, 1) && Stands(e.contract, TWIN, 4, 1)
            && OperatorLedger(e.contract, OPERATOR).totalEarned == 2
  {
    BillStep(w, DEVICE, 5, 0, TWIN);
    BillStep(Step(w, SubmitNo(DEVICE, 1)), TWIN, 5, 0, DEVICE);
  }

  lemma BilledTwice(w: World)
    requires Shared(w)
    ensures var e := Run(w, OneForBoth());
            && DeviceOf(e, SomeKey()).emitted == [ReadingNo(1)]
            && Stands(e.contract, DEVICE, 4, 1) && Stands(e.contract, TWIN, 4, 1)
            && OperatorLedger(e.contract, OPERATOR).totalEarned == 2
  {
    var a := OneForBoth();
    RunThree(w, a);
    EmitOne(w, 0);
    SubmitForBoth(Step(w, a[0]));
  }

  /** Registration does not ask whether a key is already in use. In this run the key signed one
      reading, worth one token, and two devices were billed for it. */
  lemma SharedKeyBillsTwice() returns (start: World, actions: seq<Action>)
    ensures Genesis(start)
    ensures var e := Run(start, actions);
            && DeviceOf(e, SomeKey()).emitted == [ReadingNo(1)]
            && |BilledReadings(start, actions, DEVICE)| == |BilledReadings(start, actions, TWIN)| == 1
            && OperatorLedger(e.contract, OPERATOR).totalEarned == 2
            && Stands(e.contract, DEVICE, 4, 1) && Stands(e.contract, TWIN, 4, 1)
  {
    start := Fresh();
    var open := Open(DEVICE) + Open(TWIN);
    actions := open + OneForBoth();
    FreshIsGenesis();
    BothOpen();
    RunOn(start, open, Run(start, open), OneForBoth());
    BilledTwice(Run(start, open));
    BilledArePrefixOfEmitted(start, actions, DEVICE);
    BilledArePrefixOfEmitted(start, actions, TWIN);
  }
}
