/**
 The two independent checks a terminal-QR screenshot passes: the client decodes
 the text far enough to see the PNG signature (section 3.1 of RFC 2083), the
 runner compares the text with a fixed prefix.
 */
module QrProtocol {
  import opened Base64
  import opened Wrappers

  const MAX_PNG_TEXT: nat := 1_048_576

  const SIGNATURE: seq<Byte> := [137, 80, 78, 71, 13, 10, 26, 10]

  /** The characters of "iVBORw0KGgo=". */
  const PREFIX: seq<Byte> := [105, 86, 66, 79, 82, 119, 48, 75, 71, 103, 111, 61]

  function Base64Value(byte: Byte): (r: Option<Byte>)
    ensures r.Some? ==> r.value < 64
  {
    if 65 <= byte <= 90 then Some(byte - 65)
    else if 97 <= byte <= 122 then Some(byte - 97 + 26)
    else if 48 <= byte <= 57 then Some(byte - 48 + 52)
    else if byte == 43 then Some(62)
    else if byte == 47 then Some(63)
    else None
  }

  /** What the client accepts, stated on the decoded bytes. */
  ghost predicate IsPngText(value: seq<Byte>) {
    && 12 <= |value| <= MAX_PNG_TEXT && |value| % 4 == 0
    && WellFormed(value)
    && SIGNATURE <= Decode(value)
  }

  lemma DigitHasValue(v: bv6)
    ensures Base64Value(Digit(v)) == Some(v as Byte)
  {
  }

  lemma ValueHasDigit(byte: Byte)
    ensures match Base64Value(byte)
            case Some(v) => Digit(v as bv6) == byte
            case None => true
  {
  }

  /** The lookup finds a value exactly for the alphabet, and it is the digit's value. */
  lemma Base64ValueInvertsDigit(byte: Byte)
    ensures Base64Value(byte).Some? <==> IsDigit(byte)
    ensures Base64Value(byte).Some? ==> Base64Value(byte).value == ValueOf(byte) as Byte
  {
    if Base64Value(byte).Some? {
      ValueHasDigit(byte);
      ValueOfDigit(Base64Value(byte).value as bv6);
    }
    if IsDigit(byte) {
      var v: bv6 :| Digit(v) == byte;
      DigitHasValue(v);
    }
  }

  /** Shifts that drop high bits compute the same bytes as the 24-bit group. */
  lemma ShiftsDecode(a: bv6, b: bv6, c: bv6, d: bv6)
    ensures var a', b', c', d' := a as Byte, b as Byte, c as Byte, d as Byte;
      GroupBytes(Group(a, b, c, d)) == [(a' << 2) | (b' >> 4), (b' << 4) | (c' >> 2), (c' << 6) | d']
  {
  }

  /** Index of the first padding character, if there is one. */
  method FirstPadding(bytes: seq<Byte>) returns (p: nat)
    ensures p <= |bytes| && (p < |bytes| ==> bytes[p] == PAD)
    ensures forall k :: 0 <= k < p ==> bytes[k] != PAD
  {
    p := 0;
    while p < |bytes| && bytes[p] != PAD
      invariant p <= |bytes|
      invariant forall k :: 0 <= k < p ==> bytes[k] != PAD
    {
      p := p + 1;
    }
  }

  method AllPadding(bytes: seq<Byte>) returns (all: bool)
    ensures all <==> forall k :: 0 <= k < |bytes| ==> bytes[k] == PAD
  {
    for k := 0 to |bytes|
      invariant forall i :: 0 <= i < k ==> bytes[i] == PAD
    {
      if bytes[k] != PAD {
        return false;
      }
    }
    return true;
  }

  lemma ChunkDecodes(chunk: seq<Byte>, a: Byte, b: Byte, c: Byte, d: Byte)
    requires |chunk| == 4 && a == ValueOf(chunk[0]) as Byte && b == ValueOf(chunk[1]) as Byte
    requires c == ValueOf(chunk[2]) as Byte && d == ValueOf(chunk[3]) as Byte
    ensures [(a << 2) | (b >> 4), (b << 4) | (c >> 2), (c << 6) | d][..3 - Padding(chunk)] == DecodeQuantum(chunk)
  {
    hide ValueOf;
    hide GroupBytes;
    hide Group;
    ShiftsDecode(ValueOf(chunk[0]), ValueOf(chunk[1]), ValueOf(chunk[2]), ValueOf(chunk[3]));
  }

  /** Decodes one quantum the way the client's loop body does; `None` is its early `false`. */
  method ReadChunk(chunk: seq<Byte>, last: bool) returns (r: Option<seq<Byte>>)
    requires |chunk| == 4 && (chunk[2] == PAD ==> chunk[3] == PAD)
    ensures r.Some? <==> QuantumOk(chunk, last)
    ensures r.Some? ==> r.value == DecodeQuantum(chunk)
  {
    hide Base64Value;
    hide IsDigit;
    hide Digit;
    hide ValueOf;
    hide DecodeQuantum;
    Base64ValueInvertsDigit(chunk[0]);
    Base64ValueInvertsDigit(chunk[1]);
    Base64ValueInvertsDigit(chunk[2]);
    Base64ValueInvertsDigit(chunk[3]);
    PadIsNoDigit();
    var a := Base64Value(chunk[0]);
    if a.None? { return None; }
    var b := Base64Value(chunk[1]);
    if b.None? { return None; }
    var padding := Padding(chunk);
    if padding > 2 || (padding > 0 && !last) || (padding == 2 && chunk[2] != PAD) {
      return None;
    }
    var c := if chunk[2] == PAD then Some(0) else Base64Value(chunk[2]);
    if c.None? { return None; }
    var d := if chunk[3] == PAD then Some(0) else Base64Value(chunk[3]);
    if d.None? { return None; }
    ChunkDecodes(chunk, a.value, b.value, c.value, d.value);
    var decoded := [(a.value << 2) | (b.value >> 4), (b.value << 4) | (c.value >> 2), (c.value << 6) | d.value];
    return Some(decoded[..3 - padding]);
  }

  /** `written` bytes of the accumulator hold the start of what has been decoded. */
  ghost predicate Accumulated(signature: seq<Byte>, written: nat, decoded: seq<Byte>) {
    && |signature| == 8 && written <= 8
    && written == (if |decoded| < 8 then |decoded| else 8)
    && signature[..written] == decoded[..written]
  }

  /** Feeds decoded bytes to the accumulator until its eight cells are full. */
  method Accumulate(signature: array<Byte>, written: nat, chunk: seq<Byte>, ghost decoded: seq<Byte>)
    returns (written': nat)
    requires signature.Length == 8 && Accumulated(signature[..], written, decoded)
    modifies signature
    ensures Accumulated(signature[..], written', decoded + chunk)
  {
    written' := written;
    for k := 0 to |chunk|
      invariant Accumulated(signature[..], written', decoded + chunk[..k])
    {
      ghost var before := decoded + chunk[..k];
      assert decoded + chunk[..k + 1] == before + [chunk[k]];
      if written' < signature.Length {
        assert written' == |before|;
        signature[written'] := chunk[k];
        written' := written' + 1;
        assert signature[..written'] == before + [chunk[k]];
      } else {
        assert (before + [chunk[k]])[..8] == before[..8];
      }
    }
    assert decoded + chunk[..|chunk|] == decoded + chunk;
  }

  /** A full accumulator decides whether the decoded text starts with the signature. */
  lemma SignatureDecides(signature: seq<Byte>, written: nat, decoded: seq<Byte>)
    requires Accumulated(signature, written, decoded)
    ensures (written >= 8 && signature == SIGNATURE) <==> SIGNATURE <= decoded
  {
    if written >= 8 {
      assert signature == signature[..8] == decoded[..8];
    }
  }

  /** Text whose first padding is followed by something else is not well formed. */
  lemma BrokenPadding(value: seq<Byte>, p: nat)
    requires p < |value| && value[p] == PAD
    requires exists k :: 0 <= k < |value[p..]| && value[p..][k] != PAD
    ensures !WellFormed(value)
  {
    if WellFormed(value) {
      var k :| 0 <= k < |value[p..]| && value[p..][k] != PAD;
      PaddingIsLast(value, p, p + k);
    }
  }

  /** The client's check: bounded length, well-formed base64, and the PNG signature. */
  method PngBase64IsValid(value: seq<Byte>) returns (ok: bool)
    ensures ok <==> IsPngText(value)
  {
    hide QuantumOk;
    hide DecodeQuantum;
    hide Decode;
    if |value| < 12 || |value| > MAX_PNG_TEXT || |value| % 4 != 0 {
      return false;
    }
    var signature := new Byte[8](_ => 0);
    var written: nat := 0;
    var firstPadding := FirstPadding(value);
    if firstPadding < |value| {
      var all := AllPadding(value[firstPadding..]);
      if !all {
        BrokenPadding(value, firstPadding);
        return false;
      }
    }
    var chunks := |value| / 4;
    EmptyText();
    assert value[..0] == [];
    for index := 0 to chunks
      invariant forall k :: firstPadding <= k < |value| ==> value[k] == PAD
      invariant forall i :: 0 <= i < index ==> QuantumOk(value[4 * i..4 * i + 4], i == chunks - 1)
      invariant Accumulated(signature[..], written, Decode(value[..4 * index]))
    {
      var chunk := value[4 * index..4 * index + 4];
      assert chunk[2] == PAD ==> 4 * index + 2 >= firstPadding && chunk[3] == value[4 * index + 3];
      var r := ReadChunk(chunk, index + 1 == chunks);
      if r.None? {
        return false;
      }
      DecodeBack(value[..4 * index], chunk);
      assert value[..4 * (index + 1)] == value[..4 * index] + chunk;
      written := Accumulate(signature, written, r.value, Decode(value[..4 * index]));
    }
    assert value[..4 * chunks] == value;
    SignatureDecides(signature[..], written, Decode(value));
    return written >= |SIGNATURE| && signature[..] == SIGNATURE;
  }

  /** Of standard encodings the client accepts those of byte strings within the bound that start like a PNG. */
  lemma EncodedPngIsAccepted(bytes: seq<Byte>)
    ensures IsPngText(Encode(bytes)) <==> SIGNATURE <= bytes && |bytes| <= MAX_PNG_TEXT / 4 * 3
  {
    hide Encode;
    hide Decode;
    hide WellFormed;
    RoundTrip(bytes);
  }

  // --------------------------------------------------------- the runner's check

  predicate RunnerAlphabet(byte: Byte) {
    48 <= byte <= 57 || 65 <= byte <= 90 || 97 <= byte <= 122 || byte == 43 || byte == 47 || byte == 61
  }

  predicate RunnerAccepts(value: seq<Byte>) {
    && |PREFIX| <= |value| <= MAX_PNG_TEXT && |value| % 4 == 0
    && PREFIX <= value
    && forall k :: 0 <= k < |value| ==> RunnerAlphabet(value[k])
  }

  lemma RunnerAlphabetIsDigits(byte: Byte)
    ensures RunnerAlphabet(byte) <==> IsDigit(byte) || byte == PAD
  {
    Base64ValueInvertsDigit(byte);
  }

  /** Behind its prefix the runner takes digits and padding in any order, in whole quanta and within the bound. */
  lemma RunnerAcceptsIff(value: seq<Byte>)
    ensures RunnerAccepts(value) <==>
      && 12 <= |value| <= 1_048_576 && |value| % 4 == 0 && value[..12] == PREFIX
      && forall k :: 12 <= k < |value| ==> IsDigit(value[k]) || value[k] == PAD
  {
    forall k | 0 <= k < |value| ensures RunnerAlphabet(value[k]) <==> IsDigit(value[k]) || value[k] == PAD {
      RunnerAlphabetIsDigits(value[k]);
    }
    hide IsDigit;
    if |value| >= 12 && value[..12] == PREFIX {
      assert forall k :: 0 <= k < 12 ==> value[k] == PREFIX[k];
      assert forall k :: 0 <= k < 12 ==> RunnerAlphabet(PREFIX[k]);
    }
  }

  lemma PrefixEncodesSignature()
    ensures Encode(SIGNATURE) == PREFIX
  {
    assert SIGNATURE[3..] == [71, 13, 10, 26, 10] && SIGNATURE[3..][3..] == [26, 10];
    assert EncodeQuantum(137, 80, 78, 3) == [105, 86, 66, 79];
    assert EncodeQuantum(71, 13, 10, 3) == [82, 119, 48, 75];
    assert EncodeQuantum(26, 10, 0, 2) == [71, 103, 111, 61];
  }

  /**
   The checks are meant to pass the same screenshots, but the runner demands a
   prefix ending in padding, which the client allows only at the very end: the one
   text both accept is the encoding of the bare signature.
   */
  lemma ChecksAgreeOnOneText(value: seq<Byte>)
    ensures RunnerAccepts(value) && IsPngText(value) <==> value == PREFIX
  {
    hide Encode;
    hide Decode;
    hide WellFormed;
    if RunnerAccepts(value) && IsPngText(value) {
      assert value[11] == PREFIX[11] == PAD;
      PaddingIsLast(value, 11, 11);
    }
    if value == PREFIX {
      PrefixEncodesSignature();
      RoundTrip(SIGNATURE);
    }
  }

  /** So no encoding of a real image, which is longer than its signature, passes the runner. */
  lemma RealScreenshotsAreRefused(bytes: seq<Byte>)
    requires SIGNATURE <= bytes
    ensures RunnerAccepts(Encode(bytes)) <==> bytes == SIGNATURE
  {
    hide Encode;
    hide Decode;
    hide WellFormed;
    EncodedPngIsAccepted(bytes);
    ChecksAgreeOnOneText(Encode(bytes));
    PrefixEncodesSignature();
    RoundTrip(bytes);
    RoundTrip(SIGNATURE);
  }

  // ------------------------------------------------------------------- tokens

  const MAX_TOKEN: nat := 128

  predicate TokenCharacter(c: char) {
    'a' <= c <= 'z' || 'A' <= c <= 'Z' || '0' <= c <= '9' || c == '-' || c == '_'
  }

  predicate TokenIsValid(token: string) {
    0 < |token| <= MAX_TOKEN && forall k :: 0 <= k < |token| ==> TokenCharacter(token[k])
  }

  /** One to 128 letters, digits, dashes and underscores. */
  lemma TokenIsValidMeans(token: string)
    ensures TokenIsValid(token) <==>
      && 1 <= |token| <= 128
      && forall k :: 0 <= k < |token| ==>
           var c := token[k];
           c == '-' || c == '_' || '0' <= c <= '9' || 'A' <= c <= 'Z' || 'a' <= c <= 'z'
  {
  }
}
