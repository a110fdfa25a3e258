/**
 Base64 as section 4 of RFC 4648 defines it: 24-bit groups of three bytes written
 as four 6-bit digits, the last group padded with '='. Unlike the RFC's strict
 reading, `WellFormed` lets the unused low bits of a padded group be anything.
 */
module Base64 {

  type Byte = bv8

  const PAD: Byte := 61

  /** Table 1 of RFC 4648: the digit that stands for the 6-bit value `v`. */
  function Digit(v: bv6): Byte {
    if v <= 25 then v as Byte + 65
    else if v <= 51 then v as Byte + 71
    else if v <= 61 then v as Byte - 4
    else if v == 62 then 43
    else 47
  }

  ghost predicate IsDigit(c: Byte) { exists v: bv6 :: Digit(v) == c }

  function Group(a: bv6, b: bv6, c: bv6, d: bv6): bv24 {
    (a as bv24 << 18) | (b as bv24 << 12) | (c as bv24 << 6) | d as bv24
  }

  function GroupBytes(g: bv24): (r: seq<Byte>)
    ensures |r| == 3
  {
    [((g >> 16) & 0xFF) as Byte, ((g >> 8) & 0xFF) as Byte, (g & 0xFF) as Byte]
  }

  function BytesGroup(x: Byte, y: Byte, z: Byte): bv24 {
    (x as bv24 << 16) | (y as bv24 << 8) | z as bv24
  }

  function Sextet(g: bv24, shift: bv5): bv6
    requires shift <= 18
  {
    ((g >> shift) & 0x3F) as bv6
  }

  // ----------------------------------------------------------------- encoding

  function EncodeGroup(g: bv24): (q: seq<Byte>)
    ensures |q| == 4
  {
    [Digit(Sextet(g, 18)), Digit(Sextet(g, 12)), Digit(Sextet(g, 6)), Digit(Sextet(g, 0))]
  }

  /** One quantum for the first `kept` of three bytes, the others being zero. */
  function EncodeQuantum(x: Byte, y: Byte, z: Byte, kept: nat): (q: seq<Byte>)
    requires 1 <= kept <= 3
    ensures |q| == 4
  {
    EncodeGroup(BytesGroup(x, y, z))[..kept + 1] + [PAD, PAD][..3 - kept]
  }

  function Encode(bytes: seq<Byte>): seq<Byte> {
    if |bytes| == 0 then []
    else if |bytes| == 1 then EncodeQuantum(bytes[0], 0, 0, 1)
    else if |bytes| == 2 then EncodeQuantum(bytes[0], bytes[1], 0, 2)
    else EncodeQuantum(bytes[0], bytes[1], bytes[2], 3) + Encode(bytes[3..])
  }

  // ----------------------------------------------------------------- decoding

  /** A quantum of four characters; only the last one may be padded, and only at its end. */
  ghost predicate QuantumOk(q: seq<Byte>, last: bool)
    requires |q| == 4
  {
    && IsDigit(q[0]) && IsDigit(q[1])
    && (IsDigit(q[2]) || (q[2] == PAD && q[3] == PAD && last))
    && (IsDigit(q[3]) || (q[3] == PAD && last))
  }

  ghost predicate WellFormed(text: seq<Byte>) {
    && |text| % 4 == 0
    && forall i :: 0 <= i < |text| / 4 ==> QuantumOk(text[4 * i..4 * i + 4], i == |text| / 4 - 1)
  }

  /** The value a digit stands for; padding contributes zero bits. */
  ghost function ValueOf(c: Byte): bv6 {
    if IsDigit(c) then (var v: bv6 :| Digit(v) == c; v) else 0
  }

  function Padding(q: seq<Byte>): (n: nat)
    requires |q| == 4
    ensures n <= 2
  {
    (if q[2] == PAD then 1 else 0) + (if q[3] == PAD then 1 else 0)
  }

  ghost function DecodeQuantum(q: seq<Byte>): seq<Byte>
    requires |q| == 4
  {
    GroupBytes(Group(ValueOf(q[0]), ValueOf(q[1]), ValueOf(q[2]), ValueOf(q[3])))[..3 - Padding(q)]
  }

  ghost function Decode(text: seq<Byte>): seq<Byte>
    requires |text| % 4 == 0
  {
    if |text| == 0 then []
    else Decode(text[..|text| - 4]) + DecodeQuantum(text[|text| - 4..])
  }

  // ---------------------------------------------------------------- round trip

  lemma DigitInjective(v: bv6, w: bv6)
    ensures Digit(v) == Digit(w) ==> v == w
    ensures Digit(v) != PAD
  {
  }

  lemma ValueOfDigit(v: bv6)
    ensures IsDigit(Digit(v)) && ValueOf(Digit(v)) == v
  {
    DigitInjective(v, ValueOf(Digit(v)));
  }

  lemma PadIsNoDigit()
    ensures !IsDigit(PAD) && ValueOf(PAD) == 0
  {
    forall v: bv6 ensures Digit(v) != PAD { DigitInjective(v, v); }
  }

  lemma RegroupSextets(g: bv24)
    ensures Group(Sextet(g, 18), Sextet(g, 12), Sextet(g, 6), Sextet(g, 0)) == g
  {
  }

  lemma BytesOfGroup(x: Byte, y: Byte, z: Byte)
    ensures GroupBytes(BytesGroup(x, y, z)) == [x, y, z]
  {
  }

  lemma LowSextetsVanish(x: Byte, y: Byte)
    ensures Sextet(BytesGroup(x, 0, 0), 6) == 0 && Sextet(BytesGroup(x, 0, 0), 0) == 0
    ensures Sextet(BytesGroup(x, y, 0), 0) == 0
  {
  }

  /** Decoding one encoded group, padded or not, gives its bytes back. */
  lemma QuantumRoundTrip(x: Byte, y: Byte, z: Byte, kept: nat)
    requires 1 <= kept <= 3 && (kept <= 2 ==> z == 0) && (kept == 1 ==> y == 0)
    ensures var q := EncodeQuantum(x, y, z, kept);
      QuantumOk(q, true) && (kept == 3 ==> QuantumOk(q, false)) && DecodeQuantum(q) == [x, y, z][..kept]
  {
    var g := BytesGroup(x, y, z);
    var q := EncodeQuantum(x, y, z, kept);
    ValueOfDigit(Sextet(g, 18));
    ValueOfDigit(Sextet(g, 12));
    ValueOfDigit(Sextet(g, 6));
    ValueOfDigit(Sextet(g, 0));
    DigitInjective(Sextet(g, 6), Sextet(g, 0));
    DigitInjective(Sextet(g, 0), Sextet(g, 0));
    PadIsNoDigit();
    LowSextetsVanish(x, y);
    RegroupSextets(g);
    BytesOfGroup(x, y, z);
    assert Group(ValueOf(q[0]), ValueOf(q[1]), ValueOf(q[2]), ValueOf(q[3])) == g;
  }

  /** One more quantum at the end decodes on its own. */
  lemma DecodeBack(text: seq<Byte>, q: seq<Byte>)
    requires |text| % 4 == 0 && |q| == 4
    ensures Decode(text + q) == Decode(text) + DecodeQuantum(q)
  {
    hide DecodeQuantum;
    var all := text + q;
    assert all[..|all| - 4] == text && all[|all| - 4..] == q;
  }

  lemma {:induction false} DecodeFront(q: seq<Byte>, rest: seq<Byte>)
    requires |q| == 4 && |rest| % 4 == 0
    ensures Decode(q + rest) == DecodeQuantum(q) + Decode(rest)
    decreases |rest|
  {
    hide DecodeQuantum;
    hide Decode;
    if rest == [] {
      EmptyText();
      DecodeBack([], q);
      assert [] + q == q && q + rest == q;
    } else {
      var n := |rest| - 4;
      var front, back := rest[..n], rest[n..];
      DecodeFront(q, front);
      DecodeBack(q + front, back);
      DecodeBack(front, back);
      assert front + back == rest;
      assert (q + front) + back == q + rest;
    }
  }

  lemma WellFormedFront(q: seq<Byte>, rest: seq<Byte>)
    requires |q| == 4 && WellFormed(rest) && QuantumOk(q, rest == [])
    ensures WellFormed(q + rest)
  {
    var all := q + rest;
    forall i | 0 <= i < |all| / 4
      ensures QuantumOk(all[4 * i..4 * i + 4], i == |all| / 4 - 1)
    {
      if i == 0 {
        assert all[0..4] == q;
      } else {
        assert all[4 * i..4 * i + 4] == rest[4 * (i - 1)..4 * (i - 1) + 4];
      }
    }
  }

  lemma EmptyText()
    ensures WellFormed([]) && Decode([]) == []
  {
  }

  /** Decoding undoes encoding for every byte string. */
  lemma {:induction false} RoundTrip(bytes: seq<Byte>)
    ensures WellFormed(Encode(bytes))
    ensures Decode(Encode(bytes)) == bytes
    ensures |Encode(bytes)| == (|bytes| + 2) / 3 * 4
  {
    hide EncodeQuantum;
    hide DecodeQuantum;
    hide QuantumOk;
    hide Decode;
    hide WellFormed;
    if |bytes| == 0 {
      EmptyText();
    } else {
      var kept := if |bytes| < 3 then |bytes| else 3;
      var x := bytes[0];
      var y := if |bytes| > 1 then bytes[1] else 0;
      var z := if |bytes| > 2 then bytes[2] else 0;
      var q := EncodeQuantum(x, y, z, kept);
      var rest := Encode(bytes[kept..]);
      QuantumRoundTrip(x, y, z, kept);
      RoundTrip(bytes[kept..]);
      assert Encode(bytes) == q + rest;
      DecodeFront(q, rest);
      WellFormedFront(q, rest);
      assert bytes == [x, y, z][..kept] + bytes[kept..];
    }
  }

  // -------------------------------------------------------- facts about padding

  /** In well-formed text nothing but padding follows a padding character. */
  lemma PaddingIsLast(text: seq<Byte>, p: nat, k: nat)
    requires WellFormed(text) && p <= k < |text| && text[p] == PAD
    ensures text[k] == PAD && |text| - 2 <= p
  {
    PadIsNoDigit();
    var i, last := p / 4, |text| / 4 - 1;
    var q := text[4 * i..4 * i + 4];
    assert QuantumOk(q, i == last);
    assert q[p - 4 * i] == PAD;
    assert i == last;
    assert text[k] == q[k - 4 * i];
  }
}
