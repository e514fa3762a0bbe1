/** emulator/client.py: the device that counts, signs and emits. */
module Emulator {
  import opened Prelude
  import opened Codec
  import opened Billing

  /** seqNo is the device's own counter; emitted is every reading it has signed, in order. */
  datatype Device = Device(seqNo: nat, emitted: seq<Reading>)

  /** The next number, the units and the time all fit eight bytes. */
  predicate Packs(d: Device, ticks: int, ts: nat) {
    d.seqNo + 1 <= U64_MAX && Max(1, ticks) <= U64_MAX && ts <= U64_MAX
  }

  /** One emit(): the counter moves first; packing an integer beyond 64 bits then raises, and
      that sequence number is never signed. */
  function EmitStep(d: Device, ticks: int, ts: nat): Device {
    var s := d.seqNo + 1;
    if Packs(d, ticks, ts) then Device(s, d.emitted + [Reading(s, Max(1, ticks), ts)])
    else d.(seqNo := s)
  }

  predicate Ordered(d: Device) {
    && (forall i :: 0 <= i < |d.emitted| ==> 1 <= d.emitted[i].seqNo <= d.seqNo && 0 < d.emitted[i].delta)
    && (forall i, j :: 0 <= i < j < |d.emitted| ==> d.emitted[i].seqNo < d.emitted[j].seqNo)
  }

  lemma EmitKeepsOrder(d: Device, ticks: int, ts: nat)
    requires Ordered(d)
    ensures Ordered(EmitStep(d, ticks, ts)) && d.emitted <= EmitStep(d, ticks, ts).emitted
  {
  }

  class EmulatedDevice {
    const key: PubKey
    var seqNo: nat
    ghost var emitted: seq<Reading>

    ghost function View(): Device
      reads this
    {
      Device(seqNo, emitted)
    }

    constructor (key: PubKey)
      ensures this.key == key && View() == Device(0, [])
    {
      this.key, seqNo, emitted := key, 0, [];
    }

    /** None stands for the OverflowError that int.to_bytes raises. */
    method Emit(ticks: int, ts: nat) returns (payload: Option<(Reading, Signature)>)
      modifies this
      ensures View() == EmitStep(old(View()), ticks, ts)
      ensures payload.Some? <==> |emitted| == |old(emitted)| + 1
      ensures payload.Some? ==>
                && payload.value.0 == Last(emitted)
                && payload.value.1 == Signature(key, Message(key, payload.value.0))
                && payload.value.0.seqNo == seqNo
                && payload.value.0.delta == (if ticks >= 1 then ticks else 1)
                && payload.value.0.timestamp == ts
      ensures seqNo == old(seqNo) + 1
      ensures payload.Some? <==> seqNo <= U64_MAX && ticks <= U64_MAX && ts <= U64_MAX
    {
      var deltaUnits := Max(1, ticks);
      seqNo := seqNo + 1;
      var message := EmulatorMessage(key, seqNo, deltaUnits, ts);
      if message.None? {
        return None;
      }
      var reading := Reading(seqNo, deltaUnits, ts);
      emitted := emitted + [reading];
      return Some((reading, Signature(key, message.value)));
    }
  }

  lemma {:induction false} SeqAtLeast(d: Device, i: nat)
    requires Ordered(d) && i < |d.emitted|
    ensures i + 1 <= d.emitted[i].seqNo
  {
    if i > 0 {
      SeqAtLeast(d, i - 1);
    }
  }

  /** In an ordered history that starts 1, 2, .., n, the reading numbered n + 1 is the next one. */
  lemma NextEmitted(d: Device, n: nat, i: nat)
    requires Ordered(d) && n <= |d.emitted| && i < |d.emitted|
    requires forall k :: 0 <= k < n ==> d.emitted[k].seqNo == k + 1
    requires d.emitted[i].seqNo == n + 1
    ensures i == n
  {
    SeqAtLeast(d, i);
  }
}
