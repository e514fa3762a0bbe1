/** The signed reading: contracts/src/storage.rs, backend/src/api/readings.js and
    emulator/client.py each build these 70 bytes for themselves. */
module Codec {
  import opened Prelude

  type PubKey = k: seq<byte> | |k| == 32 witness seq(32, _ => 0)

  /** What a device signs, besides its own key. */
  datatype Reading = Reading(seqNo: u64, delta: u64, timestamp: u64)

  /** "iot-billing-v1" in ASCII. */
  const SIGNING_DOMAIN: seq<byte> :=
    [0x69, 0x6F, 0x74, 0x2D, 0x62, 0x69, 0x6C, 0x6C, 0x69, 0x6E, 0x67, 0x2D, 0x76, 0x31]

  const MAX_SAFE_INTEGER: int := 0x1F_FFFF_FFFF_FFFF

  function Pow256(width: nat): (p: nat)
    ensures p > 0
  {
    if width == 0 then 1 else 256 * Pow256(width - 1)
  }

  lemma Pow256Of8()
    ensures Pow256(8) == U64_MAX + 1
  {
    assert Pow256(4) == 256 * 256 * 256 * 256;
  }

  /** Big-endian digits, most significant first. */
  function BigEndian(n: nat, width: nat): (s: seq<byte>)
    ensures |s| == width
  {
    if width == 0 then [] else BigEndian(n / 256, width - 1) + [n % 256]
  }

  function FromBigEndian(s: seq<byte>): (n: nat)
    ensures n < Pow256(|s|)
  {
    if s == [] then 0 else 256 * FromBigEndian(Init(s)) + Last(s)
  }

  lemma {:induction false} BigEndianRoundTrip(n: nat, width: nat)
    requires n < Pow256(width)
    ensures FromBigEndian(BigEndian(n, width)) == n
  {
    if width > 0 {
      BigEndianRoundTrip(n / 256, width - 1);
      assert Init(BigEndian(n, width)) == BigEndian(n / 256, width - 1);
    }
  }

  lemma {:induction false} FromBigEndianRoundTrip(s: seq<byte>)
    ensures BigEndian(FromBigEndian(s), |s|) == s
  {
    if s != [] {
      FromBigEndianRoundTrip(Init(s));
      assert s == Init(s) + [Last(s)];
    }
  }

  lemma DivideTwice(n: nat, p: nat)
    requires p > 0
    ensures n / 256 / p == n / (256 * p)
  {
    var m := n / 256;
    var x, y := m / p, m % p;
    assert n == (256 * p) * x + (256 * y + n % 256) by {
      assert m == p * x + y;
    }
    Quotient(n, 256 * p, x, 256 * y + n % 256);
  }

  lemma Quotient(n: nat, d: nat, q: nat, r: nat)
    requires 0 <= r < d && n == d * q + r
    ensures n / d == q
  {
    var k := n / d - q;
    assert d * k == r - n % d by {
      assert n == d * (n / d) + n % d;
    }
    Apart(d, k);
  }

  lemma Apart(d: int, k: int)
    requires d > 0
    ensures k == 0 || d * k >= d || d * k <= -d
  {
    if k > 0 {
      AtLeastOnce(d, k);
    } else if k < 0 {
      AtLeastOnce(d, -k);
      assert d * k == -(d * -k);
    }
  }

  lemma {:induction false} AtLeastOnce(d: int, k: int)
    requires d > 0 && k > 0
    ensures d * k >= d
  {
    if k > 1 {
      AtLeastOnce(d, k - 1);
      assert d * k == d * (k - 1) + d;
    }
  }

  /** The most significant byte comes first: byte k counts 256s to the power of what follows it. */
  lemma {:induction false} BigEndianDigits(n: nat, width: nat, k: nat)
    requires k < width
    ensures BigEndian(n, width)[k] == n / Pow256(width - 1 - k) % 256
  {
    if k < width - 1 {
      BigEndianDigits(n / 256, width - 1, k);
      DivideTwice(n, Pow256(width - 2 - k));
    }
  }

  /** The machine integers are as wide as their names say. */
  lemma Widths()
    ensures U64_MAX + 1 == Pow256(8) && 2 * (I128_MAX + 1) == Pow256(16)
    ensures MAX_SAFE_INTEGER + 1 == 32 * Pow256(6)
  {
    assert Pow256(4) == 256 * 256 * 256 * 256;
    assert Pow256(8) == 256 * 256 * 256 * 256 * Pow256(4);
    assert Pow256(12) == 256 * 256 * 256 * 256 * Pow256(8);
    assert Pow256(16) == 256 * 256 * 256 * 256 * Pow256(12);
  }

  function Message(key: PubKey, r: Reading): seq<byte> {
    SIGNING_DOMAIN + key + BigEndian(r.seqNo, 8) + BigEndian(r.delta, 8) + BigEndian(r.timestamp, 8)
  }

  /** Reads a signed message back; nothing but a well-formed message decodes. */
  function Decode(m: seq<byte>): Option<(PubKey, Reading)> {
    if |m| != 70 || m[..14] != SIGNING_DOMAIN then None
    else
      Pow256Of8();
      Some((m[14..46],
            Reading(FromBigEndian(m[46..54]), FromBigEndian(m[54..62]), FromBigEndian(m[62..])))
      )
  }

  lemma DecodeMessage(key: PubKey, r: Reading)
    ensures |Message(key, r)| == 70
    ensures Decode(Message(key, r)) == Some((key, r))
  {
    var m := Message(key, r);
    assert m[..14] == SIGNING_DOMAIN;
    assert m[14..46] == key;
    assert m[46..54] == BigEndian(r.seqNo, 8);
    assert m[54..62] == BigEndian(r.delta, 8);
    assert m[62..] == BigEndian(r.timestamp, 8);
    Pow256Of8();
    BigEndianRoundTrip(r.seqNo, 8);
    BigEndianRoundTrip(r.delta, 8);
    BigEndianRoundTrip(r.timestamp, 8);
  }

  /** The signed bytes one by one: fourteen characters, the key, and three big-endian integers in
      the order sequence, units, timestamp. */
  lemma MessageLayout(key: PubKey, r: Reading)
    ensures var m := Message(key, r);
            && |m| == 70 && m[14..46] == key
            && (forall i :: 0 <= i < 14 ==> m[i] == "iot-billing-v1"[i] as int)
            && IsU64(m[46..54], r.seqNo) && IsU64(m[54..62], r.delta) && IsU64(m[62..], r.timestamp)
  {
    U64Digits(r.seqNo);
    U64Digits(r.delta);
    U64Digits(r.timestamp);
    var m := Message(key, r);
    assert m[14..46] == key;
    assert m[46..54] == BigEndian(r.seqNo, 8);
    assert m[54..62] == BigEndian(r.delta, 8);
    assert m[62..] == BigEndian(r.timestamp, 8);
  }

  predicate IsU64(s: seq<byte>, n: nat) {
    |s| == 8 && forall k :: 0 <= k < 8 ==> s[k] == n / Pow256(7 - k) % 256
  }

  lemma U64Digits(n: nat)
    ensures IsU64(BigEndian(n, 8), n)
  {
    forall k | 0 <= k < 8 ensures BigEndian(n, 8)[k] == n / Pow256(7 - k) % 256 {
      BigEndianDigits(n, 8, k);
    }
  }

  lemma MessageDecode(m: seq<byte>)
    requires Decode(m).Some?
    ensures Message(Decode(m).value.0, Decode(m).value.1) == m
  {
    FromBigEndianRoundTrip(m[46..54]);
    FromBigEndianRoundTrip(m[54..62]);
    FromBigEndianRoundTrip(m[62..]);
    assert m == m[..14] + m[14..46] + m[46..54] + m[54..62] + m[62..];
  }

  /** No two readings, under whatever keys, share their signed bytes. */
  lemma MessageInjective(k1: PubKey, r1: Reading, k2: PubKey, r2: Reading)
    requires Message(k1, r1) == Message(k2, r2)
    ensures k1 == k2 && r1 == r2
  {
    DecodeMessage(k1, r1);
    DecodeMessage(k2, r2);
  }

  /** The contract's builder: five appends to an initially empty buffer. */
  method ContractMessage(key: PubKey, seqNo: u64, delta: u64, timestamp: u64) returns (msg: seq<byte>)
    ensures |msg| == 70
    ensures Decode(msg) == Some((key, Reading(seqNo, delta, timestamp)))
    ensures msg == Message(key, Reading(seqNo, delta, timestamp))
  {
    msg := [];
    msg := msg + SIGNING_DOMAIN;
    msg := msg + key;
    msg := msg + BigEndian(seqNo, 8);
    msg := msg + BigEndian(delta, 8);
    msg := msg + BigEndian(timestamp, 8);
    assert msg == Message(key, Reading(seqNo, delta, timestamp));
    DecodeMessage(key, Reading(seqNo, delta, timestamp));
  }

  /** The emulator's builder: int.to_bytes(8, "big") raises beyond 64 bits. */
  function EmulatorMessage(key: PubKey, seqNo: nat, delta: nat, timestamp: nat): (msg: Option<seq<byte>>)
  {
    if seqNo > U64_MAX || delta > U64_MAX || timestamp > U64_MAX then None
    else Some(SIGNING_DOMAIN + key + BigEndian(seqNo, 8) + BigEndian(delta, 8) + BigEndian(timestamp, 8))
  }

  /** A JavaScript number as Number(v) leaves it. */
  datatype JsNumber = NotFinite | Finite(value: real)

  function ParseU64(v: JsNumber): (n: Option<nat>)
  {
    if v.NotFinite? then None
    else if v.value.Floor as real != v.value then None
    else if v.value.Floor > MAX_SAFE_INTEGER || v.value.Floor < -MAX_SAFE_INTEGER then None
    else if v.value.Floor < 0 then None
    else Some(v.value.Floor)
  }

  /** The gateway's u64be: an 8-byte buffer allocated and then filled in place. */
  method U64Be(n: nat) returns (buf: array<byte>)
    requires n <= U64_MAX
    ensures fresh(buf)
    ensures buf[..] == BigEndian(n, 8)
  {
    buf := new byte[8](_ => 0);
    var rest, i := n, 8;
    while i > 0
      invariant 0 <= i <= 8
      invariant BigEndian(n, 8) == BigEndian(rest, i) + buf[i..]
    {
      i := i - 1;
      buf[i] := rest % 256;
      assert buf[i..] == [rest % 256] + buf[i + 1..];
      rest := rest / 256;
    }
    assert buf[0..] == buf[..];
  }

  /** The gateway's builder, on the already parsed request fields. */
  method GatewayMessage(keyBytes: seq<byte>, seqNo: JsNumber, delta: JsNumber, timestamp: JsNumber)
    returns (msg: Option<seq<byte>>)
    ensures msg == GatewayBytes(keyBytes, seqNo, delta, timestamp)
  {
    var s, d, t := ParseU64(seqNo), ParseU64(delta), ParseU64(timestamp);
    if s.None? || d.None? || t.None? || |keyBytes| != 32 {
      return None;
    }
    var sb := U64Be(s.value);
    var db := U64Be(d.value);
    var tb := U64Be(t.value);
    msg := Some(SIGNING_DOMAIN + keyBytes + sb[..] + db[..] + tb[..]);
  }

  function GatewayBytes(keyBytes: seq<byte>, seqNo: JsNumber, delta: JsNumber, timestamp: JsNumber)
    : Option<seq<byte>>
  {
    var s, d, t := ParseU64(seqNo), ParseU64(delta), ParseU64(timestamp);
    if s.None? || d.None? || t.None? || |keyBytes| != 32 then None
    else Some(Message(keyBytes, Reading(s.value, d.value, t.value)))
  }

  /** The gateway admits exactly the integers 0 .. 2^53 - 1, each as itself. */
  lemma ParseU64Domain(v: JsNumber, n: nat)
    ensures ParseU64(v) == Some(n) <==> n <= MAX_SAFE_INTEGER && v == Finite(n as real)
  {
    assert (n as real).Floor == n;
  }

  /** The gateway builds something exactly for a 32-byte key and three safe integers, and then it
      is the message of those. */
  lemma GatewayExactly(keyBytes: seq<byte>, seqNo: JsNumber, delta: JsNumber, timestamp: JsNumber, r: Reading)
    requires r.seqNo <= MAX_SAFE_INTEGER && r.delta <= MAX_SAFE_INTEGER && r.timestamp <= MAX_SAFE_INTEGER
    ensures GatewayBytes(keyBytes, seqNo, delta, timestamp).Some?
            && Decode(GatewayBytes(keyBytes, seqNo, delta, timestamp).value) == Some((keyBytes, r)) <==>
              && |keyBytes| == 32 && seqNo == Finite(r.seqNo as real)
              && delta == Finite(r.delta as real) && timestamp == Finite(r.timestamp as real)
  {
    ParseU64Domain(seqNo, r.seqNo);
    ParseU64Domain(delta, r.delta);
    ParseU64Domain(timestamp, r.timestamp);
    var g := GatewayBytes(keyBytes, seqNo, delta, timestamp);
    if g.Some? {
      DecodeMessage(keyBytes, Reading(ParseU64(seqNo).value, ParseU64(delta).value, ParseU64(timestamp).value));
    }
  }

  /** A reading of 64-bit fields has one byte string, whoever builds it: the emulator
      always agrees with the contract, and the gateway agrees with both exactly when each
      field is a safe integer; beyond that it builds nothing. */
  lemma BuildersAgree(key: PubKey, r: Reading)
    ensures EmulatorMessage(key, r.seqNo, r.delta, r.timestamp) == Some(Message(key, r))
    ensures var g := GatewayBytes(key, Finite(r.seqNo as real), Finite(r.delta as real), Finite(r.timestamp as real));
            if r.seqNo <= MAX_SAFE_INTEGER && r.delta <= MAX_SAFE_INTEGER && r.timestamp <= MAX_SAFE_INTEGER
            then g == Some(Message(key, r))
            else g == None
  {
    assert (r.seqNo as real).Floor == r.seqNo;
    assert (r.delta as real).Floor == r.delta;
    assert (r.timestamp as real).Floor == r.timestamp;
  }
}
