// Wrapping a PKCS#1 public key as SubjectPublicKeyInfo, with the tag-length-value encoding
// of X.690, and a strict decoder to measure it by.
module DerEncoding {
  import opened Prelude

  type Byte = x: int | 0 <= x < 256

  // ---- Encoding ----

  // The length octets as the client writes them: at most three, whatever the length.
  function LengthOctets(len: nat): seq<Byte> {
    if len < 0x80 then [len]
    else if len < 0x100 then [0x81, len]
    else if len < 0x10000 then [0x82, len / 256, len % 256]
    else [0x83, len / 65536 % 256, len / 256 % 256, len % 256]
  }

  function EncodeTlv(tag: Byte, value: seq<Byte>): seq<Byte> {
    [tag] + LengthOctets(|value|) + value
  }

  const SEQUENCE: Byte := 0x30
  const BIT_STRING: Byte := 0x03
  const OBJECT_IDENTIFIER: Byte := 0x06
  const NULL_TAG: Byte := 0x05

  // rsaEncryption, 1.2.840.113549.1.1.1
  const RSA_OID: seq<Byte> := [0x2a, 0x86, 0x48, 0x86, 0xf7, 0x0d, 0x01, 0x01, 0x01]

  const ALGORITHM_ID: seq<Byte> :=
    [0x30, 0x0d, 0x06, 0x09, 0x2a, 0x86, 0x48, 0x86, 0xf7, 0x0d, 0x01, 0x01, 0x01, 0x05, 0x00]

  function SpkiPayload(pkcs1: seq<Byte>): seq<Byte> {
    ALGORITHM_ID + EncodeTlv(BIT_STRING, [0] + pkcs1)
  }

  function Wrap(pkcs1: seq<Byte>): seq<Byte> {
    EncodeTlv(SEQUENCE, SpkiPayload(pkcs1))
  }

  // `Uint8Array.set`.
  method CopyInto(target: array<Byte>, source: array<Byte>, offset: nat)
    requires offset + source.Length <= target.Length && target != source
    modifies target
    ensures target[..] == old(target[..offset]) + source[..] + old(target[offset + source.Length..])
  {
    var i := 0;
    while i < source.Length
      invariant 0 <= i <= source.Length
      invariant target[..offset] == old(target[..offset])
      invariant target[offset..offset + i] == source[..i]
      invariant target[offset + source.Length..] == old(target[offset + source.Length..])
    {
      target[offset + i] := source[i];
      assert target[offset..offset + i + 1] == target[offset..offset + i] + [source[i]];
      i := i + 1;
    }
    assert target[..] == target[..offset] + target[offset..offset + source.Length] + target[offset + source.Length..];
    assert source[..source.Length] == source[..];
  }

  method DerHeader(tag: Byte, len: nat) returns (header: array<Byte>)
    ensures fresh(header) && header[..] == [tag] + LengthOctets(len)
  {
    if len < 0x80 {
      header := new Byte[] [tag, len];
    } else if len < 0x100 {
      header := new Byte[] [tag, 0x81, len];
    } else if len < 0x10000 {
      header := new Byte[] [tag, 0x82, len / 256, len % 256];
    } else {
      header := new Byte[] [tag, 0x83, len / 65536 % 256, len / 256 % 256, len % 256];
    }
  }

  method EncodeDerTlv(tag: Byte, value: array<Byte>) returns (result: array<Byte>)
    ensures fresh(result) && result[..] == EncodeTlv(tag, value[..])
  {
    var header := DerHeader(tag, value.Length);
    result := Concatenate(header, value);
  }

  method Concatenate(first: array<Byte>, second: array<Byte>) returns (joined: array<Byte>)
    ensures fresh(joined) && joined[..] == first[..] + second[..]
  {
    joined := new Byte[first.Length + second.Length];
    CopyInto(joined, first, 0);
    CopyInto(joined, second, first.Length);
  }

  method WrapPkcs1InSpki(pkcs1: array<Byte>) returns (spki: array<Byte>)
    ensures fresh(spki) && spki[..] == Wrap(pkcs1[..])
  {
    var algorithmId := new Byte[]
      [0x30, 0x0d, 0x06, 0x09, 0x2a, 0x86, 0x48, 0x86, 0xf7, 0x0d, 0x01, 0x01, 0x01, 0x05, 0x00];
    assert algorithmId[..] == ALGORITHM_ID;
    var unusedBits := new Byte[] [0];
    assert unusedBits[..] == [0];
    var bitStringPayload := Concatenate(unusedBits, pkcs1);
    var bitString := EncodeDerTlv(BIT_STRING, bitStringPayload);
    var spkiPayload := Concatenate(algorithmId, bitString);
    spki := EncodeDerTlv(SEQUENCE, spkiPayload);
  }

  // ---- A strict decoder: X.690 sections 8.1.2, 8.1.3 and 10.1 ----

  function BigEndian(octets: seq<Byte>): nat {
    if octets == [] then 0 else BigEndian(octets[..|octets| - 1]) * 256 + octets[|octets| - 1]
  }

  datatype Length = Length(value: nat, octets: nat)

  // Definite form only, with as few octets as possible.
  function DecodeLength(b: seq<Byte>): (r: Option<Length>)
    ensures r.Some? ==> r.value.octets <= |b|
  {
    if b == [] then None
    else if b[0] < 0x80 then Some(Length(b[0], 1))
    else
      var k := b[0] - 0x80;
      if k == 0 || k == 127 || |b| < 1 + k then None
      else
        var n := BigEndian(b[1..1 + k]);
        if b[1] == 0 || n < 0x80 then None else Some(Length(n, 1 + k))
  }

  datatype Tlv = Tlv(tag: Byte, value: seq<Byte>, rest: seq<Byte>)

  // One-octet tags only.
  function DecodeTlv(b: seq<Byte>): Option<Tlv> {
    if b == [] || b[0] % 32 == 31 then None
    else
      var len := DecodeLength(b[1..]);
      if len.None? || |b| < 1 + len.value.octets + len.value.value then None
      else
        var start := 1 + len.value.octets;
        Some(Tlv(b[0], b[start..start + len.value.value], b[start + len.value.value..]))
  }

  function Expect(b: seq<Byte>, tag: Byte): (r: Option<Tlv>)
    ensures r.Some? ==> r.value.tag == tag
  {
    var t := DecodeTlv(b);
    if t.Some? && t.value.tag == tag then t else None
  }

  // SubjectPublicKeyInfo of an RSA key, RFC 5280 section 4.1: the key's own octets.
  function DecodeSpki(b: seq<Byte>): Option<seq<Byte>> {
    var outer := Expect(b, SEQUENCE);
    if outer.None? || outer.value.rest != [] then None
    else
      var algorithm := Expect(outer.value.value, SEQUENCE);
      if algorithm.None? then None
      else
        var oid := Expect(algorithm.value.value, OBJECT_IDENTIFIER);
        if oid.None? || oid.value.value != RSA_OID then None
        else
          var parameters := Expect(oid.value.rest, NULL_TAG);
          var bits := Expect(algorithm.value.rest, BIT_STRING);
          if parameters.None? || parameters.value.value != [] || parameters.value.rest != [] then None
          else if bits.None? || bits.value.rest != [] || bits.value.value == [] || bits.value.value[0] != 0 then None
          else Some(bits.value.value[1..])
  }

  // ---- Round trips ----

  lemma BigEndianSmall(a: Byte, b: Byte, c: Byte)
    ensures BigEndian([a]) == a && BigEndian([a, b]) == a * 256 + b && BigEndian([a, b, c]) == a * 65536 + b * 256 + c
  {
    assert [a][..0] == [] && [a, b][..1] == [a] && [a, b, c][..2] == [a, b];
  }

  const LIMIT := 0x1000000

  // Below the limit the length octets say the length; at or above it, its remainder.
  lemma LengthRoundTrip(len: nat, rest: seq<Byte>)
    ensures len < LIMIT ==> DecodeLength(LengthOctets(len) + rest) == Some(Length(len, |LengthOctets(len)|))
    ensures len >= LIMIT ==>
      var r := DecodeLength(LengthOctets(len) + rest); r.None? || r.value == Length(len % LIMIT, 4)
  {
    var octets := LengthOctets(len);
    var b := octets + rest;
    assert octets[1..] == b[1..|octets|];
    if len >= 0x80 {
      BigEndianSmall(octets[1], if |octets| > 2 then octets[2] else 0, if |octets| > 3 then octets[3] else 0);
      if len < 0x100 {
        assert octets[1..] == [octets[1]];
      } else if len < 0x10000 {
        assert octets[1..] == [octets[1], octets[2]];
      } else {
        assert octets[1..] == [octets[1], octets[2], octets[3]];
        ThreeOctets(len);
      }
    }
  }

  lemma ThreeOctets(len: nat)
    ensures (len / 65536 % 256) * 65536 + (len / 256 % 256) * 256 + len % 256 == len % LIMIT
    ensures 0x10000 <= len < LIMIT ==> len / 65536 % 256 != 0
  {
    var q1, c := len / 256, len % 256;
    var q2, b := q1 / 256, q1 % 256;
    var q3, a := q2 / 256, q2 % 256;
    Divided(len, 65536, q2, b * 256 + c);
    Divided(len, LIMIT, q3, a * 65536 + b * 256 + c);
  }

  lemma Divided(n: nat, d: nat, q: nat, r: nat)
    requires n == q * d + r && r < d
    ensures n / d == q && n % d == r
  {
    var k := n / d;
    Multiples(k + 1, q, d);
    Multiples(q + 1, k, d);
  }

  lemma Multiples(x: nat, y: nat, d: nat)
    ensures x <= y ==> x * d <= y * d
  {
    if x <= y { assert y * d == x * d + (y - x) * d; }
  }

  // An encoding decodes to its parts, whatever follows it, exactly when its value is short
  // enough for three length octets and its tag fits one octet.
  lemma TlvRoundTrip(tag: Byte, value: seq<Byte>, rest: seq<Byte>)
    ensures DecodeTlv(EncodeTlv(tag, value) + rest) == Some(Tlv(tag, value, rest)) <==> |value| < LIMIT && tag % 32 != 31
  {
    var b := EncodeTlv(tag, value) + rest;
    var octets := LengthOctets(|value|);
    assert b[1..] == octets + (value + rest);
    LengthRoundTrip(|value|, value + rest);
    var start := 1 + |octets|;
    assert b[start..start + |value|] == value && b[start + |value|..] == rest;
    if |value| >= LIMIT && DecodeTlv(b).Some? {
      assert |DecodeTlv(b).value.value| == |value| % LIMIT;
    }
  }

  // No encoding is a proper prefix of another.
  lemma EncodingsArePrefixFree(tag: Byte, value: seq<Byte>, tag': Byte, value': seq<Byte>)
    requires |value| < LIMIT && |value'| < LIMIT && tag % 32 != 31 && tag' % 32 != 31
    requires EncodeTlv(tag, value) <= EncodeTlv(tag', value')
    ensures tag == tag' && value == value'
  {
    var rest := EncodeTlv(tag', value')[|EncodeTlv(tag, value)|..];
    assert EncodeTlv(tag, value) + rest == EncodeTlv(tag', value') + [];
    TlvRoundTrip(tag, value, rest);
    TlvRoundTrip(tag', value', []);
  }

  // ---- The shortest form, and the only one the decoder takes ----

  // Every way X.690 section 8.1.3 has of writing a definite length.
  predicate DefiniteForm(octets: seq<Byte>, len: nat) {
    octets != [] &&
    (|| (|octets| == 1 && octets[0] < 0x80 && octets[0] == len)
     || (2 <= |octets| <= 127 && octets[0] == 0x80 + |octets| - 1 && BigEndian(octets[1..]) == len))
  }

  lemma OwnFormIsDefinite(len: nat)
    requires len < LIMIT
    ensures DefiniteForm(LengthOctets(len), len)
  {
    var own := LengthOctets(len);
    if len >= 0x80 {
      BigEndianSmall(own[1], if |own| > 2 then own[2] else 0, if |own| > 3 then own[3] else 0);
      if |own| == 2 { assert own[1..] == [own[1]]; }
      if |own| == 3 { assert own[1..] == [own[1], own[2]]; }
      if |own| == 4 {
        assert own[1..] == [own[1], own[2], own[3]];
        ThreeOctets(len);
      }
    }
  }

  // Two and three octets of length, taken apart.
  lemma SplitOctets(a: Byte, b: Byte, c: Byte)
    ensures var n := a * 256 + b; n / 256 == a && n % 256 == b
    ensures var n := a * 65536 + b * 256 + c; n / 65536 == a && n / 256 % 256 == b && n % 256 == c
  {
    var n := a * 65536 + b * 256 + c;
    assert n == (a * 256 + b) * 256 + c;
    assert n / 256 == a * 256 + b;
  }

  // A long form of k octets after the first.
  lemma LongForm(octets: seq<Byte>)
    requires 2 <= |octets| <= 4 && octets[0] == 0x80 + |octets| - 1
    ensures var len := BigEndian(octets[1..]);
            && (|octets| == 2 ==> len < 0x100 && octets == [0x81, len])
            && (|octets| == 3 ==> len < 0x10000 && octets == [0x82, len / 256, len % 256])
            && (|octets| == 4 ==> len < LIMIT && octets == [0x83, len / 65536, len / 256 % 256, len % 256])
  {
    var b, c := if |octets| > 2 then octets[2] else 0, if |octets| > 3 then octets[3] else 0;
    BigEndianSmall(octets[1], b, c);
    SplitOctets(octets[1], b, c);
    if |octets| == 2 {
      assert octets[1..] == [octets[1]];
    } else if |octets| == 3 {
      assert octets[1..] == [octets[1], b];
    } else {
      assert octets[1..] == [octets[1], b, c];
    }
  }

  lemma SmallForms(octets: seq<Byte>, len: nat)
    requires DefiniteForm(octets, len) && len < LIMIT && |octets| <= |LengthOctets(len)|
    ensures octets == LengthOctets(len)
  {
    if |octets| == 1 {
      assert octets == [len];
    } else {
      LongForm(octets);
    }
  }

  // The client's form is definite, no other is shorter, and no other is as short.
  lemma ShortestForm(octets: seq<Byte>, len: nat)
    requires DefiniteForm(octets, len) && len < LIMIT
    ensures DefiniteForm(LengthOctets(len), len)
    ensures |LengthOctets(len)| <= |octets|
    ensures |LengthOctets(len)| == |octets| ==> octets == LengthOctets(len)
  {
    OwnFormIsDefinite(len);
    if |octets| <= |LengthOctets(len)| { SmallForms(octets, len); }
  }

  lemma {:induction false} BigEndianLarge(octets: seq<Byte>)
    requires |octets| > 3 && octets[0] != 0
    ensures BigEndian(octets) >= LIMIT
  {
    var front := octets[..|octets| - 1];
    if |octets| == 4 {
      BigEndianSmall(front[0], front[1], front[2]);
      assert front == [front[0], front[1], front[2]];
    } else {
      BigEndianLarge(front);
    }
  }

  lemma DecodedLengthIsCanonical(b: seq<Byte>)
    requires DecodeLength(b).Some? && DecodeLength(b).value.value < LIMIT
    ensures var r := DecodeLength(b).value; b[..r.octets] == LengthOctets(r.value)
  {
    if b[0] >= 0x80 {
      var k := b[0] - 0x80;
      var octets := b[..1 + k];
      assert octets[1..] == b[1..1 + k];
      if k > 3 {
        BigEndianLarge(octets[1..]);
      } else {
        LongForm(octets);
        LeadingOctetCounts(octets);
      }
    } else {
      assert b[..1] == [b[0]];
    }
  }

  // A form without leading zeros, of at least 128, is as long as its length needs.
  lemma LeadingOctetCounts(octets: seq<Byte>)
    requires 2 <= |octets| <= 4 && octets[0] == 0x80 + |octets| - 1 && octets[1] != 0
    requires BigEndian(octets[1..]) >= 0x80
    ensures octets == LengthOctets(BigEndian(octets[1..]))
  {
    LongForm(octets);
    var b, c := if |octets| > 2 then octets[2] else 0, if |octets| > 3 then octets[3] else 0;
    SplitOctets(octets[1], b, c);
  }

  // Whatever decodes is what the encoder would have written.
  lemma DecodedIsCanonical(b: seq<Byte>)
    requires DecodeTlv(b).Some? && |DecodeTlv(b).value.value| < LIMIT
    ensures var t := DecodeTlv(b).value; b == EncodeTlv(t.tag, t.value) + t.rest
  {
    DecodedLengthIsCanonical(b[1..]);
    var t, len := DecodeTlv(b).value, DecodeLength(b[1..]).value;
    assert b == [b[0]] + b[1..][..len.octets] + t.value + t.rest;
  }

  // ---- The wrapped key ----

  lemma ParametersDecode()
    ensures Expect(ALGORITHM_ID[2..], OBJECT_IDENTIFIER) == Some(Tlv(OBJECT_IDENTIFIER, RSA_OID, [NULL_TAG, 0]))
    ensures Expect([NULL_TAG, 0], NULL_TAG) == Some(Tlv(NULL_TAG, [], []))
  {
    var empty: seq<Byte> := [];
    TlvRoundTrip(NULL_TAG, empty, empty);
    assert EncodeTlv(NULL_TAG, empty) + empty == [NULL_TAG, 0];
    TlvRoundTrip(OBJECT_IDENTIFIER, RSA_OID, [NULL_TAG, 0]);
    assert EncodeTlv(OBJECT_IDENTIFIER, RSA_OID) + [NULL_TAG, 0] == ALGORITHM_ID[2..];
  }

  lemma AlgorithmIdDecodes(rest: seq<Byte>)
    ensures Expect(ALGORITHM_ID + rest, SEQUENCE) == Some(Tlv(SEQUENCE, ALGORITHM_ID[2..], rest))
    ensures Expect(ALGORITHM_ID[2..], OBJECT_IDENTIFIER) == Some(Tlv(OBJECT_IDENTIFIER, RSA_OID, [NULL_TAG, 0]))
    ensures Expect([NULL_TAG, 0], NULL_TAG) == Some(Tlv(NULL_TAG, [], []))
  {
    ParametersDecode();
    TlvRoundTrip(SEQUENCE, ALGORITHM_ID[2..], rest);
    assert EncodeTlv(SEQUENCE, ALGORITHM_ID[2..]) == ALGORITHM_ID;
  }

  lemma PayloadSize(pkcs1: seq<Byte>)
    ensures |SpkiPayload(pkcs1)| < LIMIT <==> |pkcs1| < LIMIT - 21
  {
  }

  lemma PayloadDecodes(pkcs1: seq<Byte>)
    requires |SpkiPayload(pkcs1)| < LIMIT
    ensures DecodeSpki(Wrap(pkcs1)) == Some(pkcs1)
  {
    var payload, bits := SpkiPayload(pkcs1), [0] + pkcs1;
    TlvRoundTrip(SEQUENCE, payload, []);
    assert Wrap(pkcs1) + [] == Wrap(pkcs1);
    AlgorithmIdDecodes(EncodeTlv(BIT_STRING, bits));
    TlvRoundTrip(BIT_STRING, bits, []);
    assert EncodeTlv(BIT_STRING, bits) + [] == EncodeTlv(BIT_STRING, bits);
    assert bits[1..] == pkcs1;
  }

  // An oversized payload announces only its remainder, so octets are left over.
  lemma OversizedLeavesRest(tag: Byte, value: seq<Byte>)
    requires |value| >= LIMIT
    ensures var t := DecodeTlv(EncodeTlv(tag, value)); t.Some? ==> t.value.rest != []
  {
    LengthRoundTrip(|value|, value);
    assert EncodeTlv(tag, value)[1..] == LengthOctets(|value|) + value;
  }

  // The wrapped key decodes to the key exactly when the outer payload stays below 2^24,
  // which is when the key has fewer than 2^24 - 21 octets.
  lemma WrapRoundTrip(pkcs1: seq<Byte>)
    ensures DecodeSpki(Wrap(pkcs1)) == Some(pkcs1) <==> |SpkiPayload(pkcs1)| < LIMIT
    ensures |SpkiPayload(pkcs1)| < LIMIT <==> |pkcs1| < LIMIT - 21
  {
    PayloadSize(pkcs1);
    if |SpkiPayload(pkcs1)| < LIMIT {
      PayloadDecodes(pkcs1);
    } else {
      OversizedLeavesRest(SEQUENCE, SpkiPayload(pkcs1));
    }
  }
}
