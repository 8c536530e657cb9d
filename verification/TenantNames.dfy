// Names derived from hashes: FNV-1a over bytes, the base32 and hexadecimal texts of the digest, and the tenant
// namespace name built from them.

module Bits {
  function Pow2(n: nat): (r: nat)
    ensures r >= 1
  {
    if n == 0 then 1 else 2 * Pow2(n - 1)
  }

  /** The n low bits of v, most significant first. */
  function ToBits(v: nat, n: nat): (r: seq<bool>)
    ensures |r| == n
  {
    if n == 0 then [] else ToBits(v / 2, n - 1) + [v % 2 == 1]
  }

  function FromBits(bits: seq<bool>): (r: nat)
    ensures r < Pow2(|bits|)
  {
    if bits == [] then 0 else 2 * FromBits(bits[..|bits| - 1]) + (if bits[|bits| - 1] then 1 else 0)
  }

  lemma {:induction false} FromToBits(v: nat, n: nat)
    requires v < Pow2(n)
    ensures FromBits(ToBits(v, n)) == v
  {
    if n == 0 {
    } else {
      FromToBits(v / 2, n - 1);
      assert ToBits(v, n)[..n - 1] == ToBits(v / 2, n - 1);
    }
  }

  lemma {:induction false} ToFromBits(bits: seq<bool>)
    ensures ToBits(FromBits(bits), |bits|) == bits
  {
    if bits == [] {
    } else {
      var n := |bits| - 1;
      ToFromBits(bits[..n]);
      assert FromBits(bits) / 2 == FromBits(bits[..n]);
      assert bits == bits[..n] + [bits[n]];
    }
  }

  lemma {:induction false} PowSum(m: nat, n: nat)
    ensures Pow2(m + n) == Pow2(m) * Pow2(n)
  {
    if m == 0 {
    } else {
      PowSum(m - 1, n);
    }
  }

  lemma Pow16()
    ensures Pow2(16) == 0x1_0000
  {
    assert Pow2(8) == 256;
    PowSum(8, 8);
  }

  lemma Pow32()
    ensures Pow2(32) == 0x1_0000_0000
  {
    Pow16();
    PowSum(16, 16);
  }

  lemma Pow64()
    ensures Pow2(64) == 0x1_0000_0000_0000_0000
  {
    Pow32();
    PowSum(32, 32);
  }
}

module Fnv {
  import opened Bits

  type Byte = b: nat | b < 256

  // 64-bit FNV-1a.
  const OFFSET_BASIS := 14695981039346656037
  const PRIME := 1099511628211
  const MODULUS := 0x1_0000_0000_0000_0000
  // The inverse of PRIME modulo 2^64.
  const INVERSE := 14886173955864302971

  type Hash = h: nat | h < MODULUS

  /** Exclusive or of the n low bits, bit by bit. */
  function XorBits(a: nat, b: nat, n: nat): (r: nat)
    ensures r < Pow2(n)
  {
    if n == 0 then 0 else 2 * XorBits(a / 2, b / 2, n - 1) + (if a % 2 == b % 2 then 0 else 1)
  }

  function Xor8(a: Byte, b: Byte): Byte {
    assert Pow2(8) == 256;
    XorBits(a, b, 8)
  }

  /** XOR with a byte touches the low eight bits only. */
  function XorByte(h: Hash, b: Byte): Hash {
    h / 256 * 256 + Xor8(h % 256, b)
  }

  function MulPrime(h: Hash): Hash {
    h * PRIME % MODULUS
  }

  function Step(h: Hash, b: Byte): Hash {
    MulPrime(XorByte(h, b))
  }

  function HashFrom(h: Hash, s: seq<Byte>): Hash {
    if s == [] then h else Step(HashFrom(h, s[..|s| - 1]), s[|s| - 1])
  }

  function Fnv1a(s: seq<Byte>): Hash {
    HashFrom(OFFSET_BASIS, s)
  }

  /** The hasher's loop: one state, updated byte by byte. */
  method Sum64(s: seq<Byte>) returns (h: Hash)
    ensures h == Fnv1a(s)
  {
    h := OFFSET_BASIS;
    for i := 0 to |s|
      invariant h == Fnv1a(s[..i])
    {
      assert s[..i + 1][..i] == s[..i];
      h := MulPrime(XorByte(h, s[i]));
    }
    assert s[..|s|] == s;
  }

  /** One bit more: the low bits of a and b, and the rest already known. */
  lemma XorStep(a: nat, b: nat, n: nat, rest: nat)
    requires XorBits(a / 2, b / 2, n) == rest
    ensures XorBits(a, b, n + 1) == 2 * rest + (a % 2 + b % 2) % 2
  {
  }

  lemma XorHighHalf(n: nat)
    requires n == 4
    ensures XorBits(2, 6, n) == 4
  {
    assert XorBits(0, 0, n - 4) == 0;
    XorStep(0, 0, n - 4, 0);
    XorStep(0, 1, n - 3, 0);
    XorStep(1, 3, n - 2, 1);
    XorStep(2, 6, n - 1, 2);
  }

  lemma XorLowHalf(n: nat)
    requires n == 8
    ensures XorBits(0x25, 0x61, n) == 0x44
  {
    XorHighHalf(n - 4);
    XorStep(4, 12, n - 4, 4);
    XorStep(9, 24, n - 3, 8);
    XorStep(18, 48, n - 2, 17);
    XorStep(0x25, 0x61, n - 1, 34);
  }

  lemma XorByteExample()
    ensures XorByte(OFFSET_BASIS, 0x61) == 0xcbf2_9ce4_8422_2344
  {
    XorLowHalf(8);
    assert OFFSET_BASIS % 256 == 0x25 && OFFSET_BASIS / 256 * 256 == 0xcbf2_9ce4_8422_2300;
  }

  lemma MulPrimeExample()
    ensures MulPrime(0xcbf2_9ce4_8422_2344) == 0xaf63_dc4c_8601_ec8c
  {
  }

  /** The published values of the 64-bit FNV-1a hash for the empty text and for "a". */
  lemma KnownAnswers()
    ensures Fnv1a([]) == 0xcbf2_9ce4_8422_2325
    ensures Fnv1a([0x61]) == 0xaf63_dc4c_8601_ec8c
  {
    XorByteExample();
    MulPrimeExample();
    assert [0x61][..0] == [];
  }

  lemma {:induction false} XorBitsInvolution(a: nat, b: nat, n: nat)
    requires a < Pow2(n) && b < Pow2(n)
    ensures XorBits(XorBits(a, b, n), b, n) == a && XorBits(a, XorBits(a, b, n), n) == b
  {
    if n == 0 {
    } else {
      XorBitsInvolution(a / 2, b / 2, n - 1);
      var x := XorBits(a, b, n);
      assert x / 2 == XorBits(a / 2, b / 2, n - 1) && x % 2 == (if a % 2 == b % 2 then 0 else 1);
    }
  }

  lemma Xor8Involution(a: Byte, b: Byte)
    ensures Xor8(Xor8(a, b), b) == a && Xor8(a, Xor8(a, b)) == b
  {
    assert Pow2(8) == 256;
    XorBitsInvolution(a, b, 8);
  }

  /** The inverse of a step for a known byte. */
  function Unstep(h: Hash, b: Byte): Hash {
    XorByte(h * INVERSE % MODULUS, b)
  }

  lemma MulPrimeInvertible(h: Hash)
    ensures MulPrime(h) * INVERSE % MODULUS == h
  {
    var k := h * PRIME / MODULUS;
    var t := PRIME * INVERSE / MODULUS;
    assert PRIME * INVERSE == 1 + MODULUS * t;
    assert MulPrime(h) == h * PRIME - MODULUS * k;
    assert MulPrime(h) * INVERSE == h + MODULUS * (h * t - k * INVERSE);
  }

  lemma XorByteInvolution(h: Hash, b: Byte)
    ensures XorByte(XorByte(h, b), b) == h
  {
    Xor8Involution(h % 256, b);
    var x := Xor8(h % 256, b);
    assert (h / 256 * 256 + x) / 256 == h / 256 && (h / 256 * 256 + x) % 256 == x;
  }

  /** For a fixed byte a step is a bijection on 64-bit states: Unstep undoes it. */
  lemma StepInvertible(h: Hash, b: Byte)
    ensures Unstep(Step(h, b), b) == h
  {
    MulPrimeInvertible(XorByte(h, b));
    XorByteInvolution(h, b);
  }

  /** From one state, two steps agree only on the same byte. */
  lemma StepSeparatesBytes(h: Hash, b1: Byte, b2: Byte)
    ensures Step(h, b1) == Step(h, b2) <==> b1 == b2
  {
    MulPrimeInvertible(XorByte(h, b1));
    MulPrimeInvertible(XorByte(h, b2));
    Xor8Involution(h % 256, b1);
    Xor8Involution(h % 256, b2);
  }

  lemma {:induction false} SuffixPreservesDifference(h1: Hash, h2: Hash, s: seq<Byte>)
    ensures HashFrom(h1, s) == HashFrom(h2, s) <==> h1 == h2
  {
    if s == [] {
    } else {
      var front, b := s[..|s| - 1], s[|s| - 1];
      SuffixPreservesDifference(h1, h2, front);
      StepInvertible(HashFrom(h1, front), b);
      StepInvertible(HashFrom(h2, front), b);
    }
  }

  lemma {:induction false} HashFromConcat(h: Hash, a: seq<Byte>, s: seq<Byte>)
    ensures HashFrom(h, a + s) == HashFrom(HashFrom(h, a), s)
  {
    if s == [] {
      assert a + s == a;
    } else {
      var front := s[..|s| - 1];
      HashFromConcat(h, a, front);
      assert (a + s)[..|a + s| - 1] == a + front;
    }
  }

  /** A common ending neither creates nor hides a collision. */
  lemma CommonSuffix(a: seq<Byte>, b: seq<Byte>, s: seq<Byte>)
    ensures Fnv1a(a + s) == Fnv1a(b + s) <==> Fnv1a(a) == Fnv1a(b)
  {
    HashFromConcat(OFFSET_BASIS, a, s);
    HashFromConcat(OFFSET_BASIS, b, s);
    SuffixPreservesDifference(Fnv1a(a), Fnv1a(b), s);
  }

  predicate DifferInOneByte(a: seq<Byte>, b: seq<Byte>, i: nat) {
    && i < |a| == |b|
    && a[i] != b[i]
    && forall k :: 0 <= k < |a| && k != i ==> a[k] == b[k]
  }

  /** Inputs of equal length that differ in exactly one byte never collide. */
  lemma OneByteNeverCollides(a: seq<Byte>, b: seq<Byte>, i: nat)
    requires DifferInOneByte(a, b, i)
    ensures Fnv1a(a) != Fnv1a(b)
  {
    var prefix, suffix := a[..i], a[i + 1..];
    assert a == (prefix + [a[i]]) + suffix && b == (prefix + [b[i]]) + suffix;
    CommonSuffix(prefix + [a[i]], prefix + [b[i]], suffix);
    assert (prefix + [a[i]])[..i] == prefix && (prefix + [b[i]])[..i] == prefix;
    StepSeparatesBytes(Fnv1a(prefix), a[i], b[i]);
  }
}

module Base32 {
  import opened Bits
  import opened Fnv

  function Zeros(n: nat): seq<bool> { seq(n, _ => false) }

  /** A bit string cut into groups of w bits, zero bits added on the right of the last one. */
  function Group(bits: seq<bool>, w: nat): (r: seq<nat>)
    requires w > 0
    ensures forall i :: 0 <= i < |r| ==> r[i] < Pow2(w)
    decreases |bits|
  {
    if bits == [] then []
    else if |bits| < w then [FromBits(bits + Zeros(w - |bits|))]
    else [FromBits(bits[..w])] + Group(bits[w..], w)
  }

  /** The concatenated w-bit groups. */
  function Ungroup(groups: seq<nat>, w: nat): seq<bool> {
    if groups == [] then [] else ToBits(groups[0], w) + Ungroup(groups[1..], w)
  }

  /** Base32 without padding characters (section 6 of RFC 4648): the bytes' bits in groups of five, left to right. */
  function Encode(bytes: seq<Byte>): seq<nat> {
    Group(Ungroup(bytes, 8), 5)
  }

  /** The whole bytes of a bit string; leftover bits are dropped. */
  function WholeBytes(bits: seq<bool>): seq<nat> {
    if |bits| < 8 then [] else [FromBits(bits[..8])] + WholeBytes(bits[8..])
  }

  function Decode(digits: seq<nat>): seq<nat> {
    WholeBytes(Ungroup(digits, 5))
  }

  lemma UngroupFirst(bits: seq<bool>, w: nat)
    requires 0 < w <= |bits|
    ensures Ungroup(Group(bits, w), w) == bits[..w] + Ungroup(Group(bits[w..], w), w)
  {
    ToFromBits(bits[..w]);
    assert Group(bits, w)[0] == FromBits(bits[..w]) && Group(bits, w)[1..] == Group(bits[w..], w);
  }

  /** Ungrouping gives back the bits and the zeros added at the end, fewer than a group. */
  lemma {:induction false} UngroupGroup(bits: seq<bool>, w: nat) returns (added: nat)
    requires w > 0
    ensures added < w && Ungroup(Group(bits, w), w) == bits + Zeros(added)
    decreases |bits|
  {
    if bits == [] {
      added := 0;
    } else if |bits| < w {
      added := w - |bits|;
      ToFromBits(bits + Zeros(added));
      assert Ungroup(Group(bits, w), w) == (bits + Zeros(added)) + [];
    } else {
      added := UngroupGroup(bits[w..], w);
      UngroupFirst(bits, w);
      assert bits + Zeros(added) == bits[..w] + (bits[w..] + Zeros(added));
    }
  }

  lemma FirstByte(b: Byte, rest: seq<bool>)
    ensures WholeBytes(ToBits(b, 8) + rest) == [b] + WholeBytes(rest)
  {
    var bits := ToBits(b, 8) + rest;
    assert bits[..8] == ToBits(b, 8) && bits[8..] == rest;
    assert Pow2(8) == 256;
    FromToBits(b, 8);
  }

  lemma {:induction false} BytesSurvive(bytes: seq<Byte>, extra: seq<bool>)
    requires |extra| < 8
    ensures WholeBytes(Ungroup(bytes, 8) + extra) == bytes
  {
    if bytes == [] {
      assert Ungroup(bytes, 8) + extra == extra;
    } else {
      BytesSurvive(bytes[1..], extra);
      assert Ungroup(bytes, 8) + extra == ToBits(bytes[0], 8) + (Ungroup(bytes[1..], 8) + extra);
      FirstByte(bytes[0], Ungroup(bytes[1..], 8) + extra);
    }
  }

  /** Decoding undoes encoding, for any bytes. */
  lemma RoundTrip(bytes: seq<Byte>)
    ensures Decode(Encode(bytes)) == bytes
  {
    var added := UngroupGroup(Ungroup(bytes, 8), 5);
    BytesSurvive(bytes, Zeros(added));
  }

  lemma {:induction false} UngroupLength(groups: seq<nat>, w: nat)
    ensures |Ungroup(groups, w)| == w * |groups|
  {
    if groups == [] {
    } else {
      UngroupLength(groups[1..], w);
    }
  }

  /** The number the digits stand for in base 2 to the w, most significant first. */
  function Number(digits: seq<nat>, w: nat): nat {
    if digits == [] then 0 else digits[0] * Pow2(w * (|digits| - 1)) + Number(digits[1..], w)
  }

  lemma {:induction false} FromBitsConcat(a: seq<bool>, b: seq<bool>)
    ensures FromBits(a + b) == FromBits(a) * Pow2(|b|) + FromBits(b)
  {
    if b == [] {
      assert a + b == a;
    } else {
      var front := b[..|b| - 1];
      FromBitsConcat(a, front);
      assert (a + b)[..|a + b| - 1] == a + front;
      ShiftOnce(FromBits(a), Pow2(|front|), FromBits(front), if b[|b| - 1] then 1 else 0);
    }
  }

  lemma ShiftOnce(a: nat, p: nat, f: nat, bit: nat)
    ensures 2 * (a * p + f) + bit == a * (2 * p) + (2 * f + bit)
  {
  }

  lemma {:induction false} FromZeros(n: nat)
    ensures FromBits(Zeros(n)) == 0
  {
    if n == 0 {
    } else {
      FromZeros(n - 1);
      assert Zeros(n)[..n - 1] == Zeros(n - 1);
    }
  }

  lemma {:induction false} UngroupNumber(digits: seq<nat>, w: nat)
    requires forall i :: 0 <= i < |digits| ==> digits[i] < Pow2(w)
    ensures FromBits(Ungroup(digits, w)) == Number(digits, w)
  {
    if digits == [] {
    } else {
      UngroupNumber(digits[1..], w);
      UngroupLength(digits[1..], w);
      FromToBits(digits[0], w);
      FromBitsConcat(ToBits(digits[0], w), Ungroup(digits[1..], w));
    }
  }

  /** The digits, as a number, are the bytes as a number, shifted left by the bits that fill up the last digit. */
  lemma EncodeIsPositional(bytes: seq<Byte>)
    ensures 5 * |Encode(bytes)| >= 8 * |bytes|
    ensures Number(Encode(bytes), 5) == Number(bytes, 8) * Pow2(5 * |Encode(bytes)| - 8 * |bytes|)
  {
    var bits := Ungroup(bytes, 8);
    var added := UngroupGroup(bits, 5);
    UngroupLength(Encode(bytes), 5);
    UngroupLength(bytes, 8);
    UngroupNumber(Encode(bytes), 5);
    ByteNumber(bytes);
    FromBitsConcat(bits, Zeros(added));
    FromZeros(added);
  }

  lemma ByteNumber(bytes: seq<Byte>)
    ensures FromBits(Ungroup(bytes, 8)) == Number(bytes, 8)
  {
    assert Pow2(8) == 256;
    UngroupNumber(bytes, 8);
  }

  lemma {:induction false} GroupLength(bits: seq<bool>, n: nat)
    requires 5 * n - 5 < |bits| <= 5 * n
    ensures |Group(bits, 5)| == n
    decreases n
  {
    if |bits| > 5 { GroupLength(bits[5..], n - 1); }
  }

  /** n bytes take the least number of characters that holds 8n bits. */
  lemma EncodedLength(bytes: seq<Byte>)
    ensures |Encode(bytes)| == (8 * |bytes| + 4) / 5
    ensures forall i :: 0 <= i < |Encode(bytes)| ==> Encode(bytes)[i] < 32
  {
    UngroupLength(bytes, 8);
    assert Pow2(5) == 32;
    GroupLength(Ungroup(bytes, 8), (8 * |bytes| + 4) / 5);
  }
}

module TenantNames {
  import opened Bits
  import opened Fnv
  import opened Base32

  /** Character d of the standard alphabet, in lower case. */
  function LowerChar(d: nat): char {
    if d < 26 then ('a' as int + d) as char else if d < 32 then ('2' as int + d - 26) as char else '='
  }

  predicate IsNameChar(c: char) { 'a' <= c <= 'z' || '2' <= c <= '7' }

  function Text(digits: seq<nat>): string {
    seq(|digits|, i requires 0 <= i < |digits| => LowerChar(digits[i]))
  }

  /** hasher.Sum(nil): the hash as eight bytes, most significant first. */
  function Digest(s: seq<Byte>): seq<Byte> {
    assert Pow2(8) == 256;
    Group(ToBits(Fnv1a(s), 64), 8)
  }

  function EncodeTenantName(s: seq<Byte>): string {
    Text(Encode(Digest(s)))
  }

  /** generateTenantNamespaceName. */
  function NamespaceName(project: string, tenant: seq<Byte>): string {
    project + "-" + EncodeTenantName(tenant)
  }

  lemma TextInjective(a: seq<nat>, b: seq<nat>)
    requires forall i :: 0 <= i < |a| ==> a[i] < 32
    requires forall i :: 0 <= i < |b| ==> b[i] < 32
    ensures Text(a) == Text(b) <==> a == b
  {
    if Text(a) == Text(b) {
      assert |Text(a)| == |a| && |Text(b)| == |b|;
      forall i | 0 <= i < |a| ensures a[i] == b[i] {
        assert Text(a)[i] == LowerChar(a[i]) && Text(b)[i] == LowerChar(b[i]);
      }
    }
  }

  /** The digest has eight bytes and determines the hash. */
  lemma DigestInjective(a: seq<Byte>, b: seq<Byte>)
    ensures Digest(a) == Digest(b) <==> Fnv1a(a) == Fnv1a(b)
  {
    var addedA := UngroupGroup(ToBits(Fnv1a(a), 64), 8);
    var addedB := UngroupGroup(ToBits(Fnv1a(b), 64), 8);
    if Digest(a) == Digest(b) {
      var bitsA, bitsB := ToBits(Fnv1a(a), 64), ToBits(Fnv1a(b), 64);
      assert bitsA == (bitsA + Zeros(addedA))[..64] && bitsB == (bitsB + Zeros(addedB))[..64];
      Pow64();
      FromToBits(Fnv1a(a), 64);
      FromToBits(Fnv1a(b), 64);
    }
  }

  lemma {:induction false} ByteGroups(bits: seq<bool>, n: nat)
    requires |bits| == 8 * n
    ensures |Group(bits, 8)| == n
  {
    if n == 0 {
    } else {
      ByteGroups(bits[8..], n - 1);
    }
  }

  lemma DigestLength(s: seq<Byte>)
    ensures |Digest(s)| == 8
  {
    ByteGroups(ToBits(Fnv1a(s), 64), 8);
  }

  /** The digest is the hash as a number of eight bytes, most significant first. */
  lemma DigestIsBigEndian(s: seq<Byte>)
    ensures Number(Digest(s), 8) == Fnv1a(s)
  {
    var bits := ToBits(Fnv1a(s), 64);
    var added := UngroupGroup(bits, 8);
    DigestLength(s);
    UngroupLength(Digest(s), 8);
    assert bits + Zeros(added) == bits;
    ByteNumber(Digest(s));
    Pow64();
    FromToBits(Fnv1a(s), 64);
  }

  lemma DigestEncoded(s: seq<Byte>)
    ensures |Encode(Digest(s))| == 13
    ensures Number(Encode(Digest(s)), 5) == 2 * Fnv1a(s)
  {
    DigestLength(s);
    EncodedLength(Digest(s));
    EncodeIsPositional(Digest(s));
    DigestIsBigEndian(s);
    ShiftedByOne(Number(Encode(Digest(s)), 5), Fnv1a(s), 5 * |Encode(Digest(s))| - 8 * |Digest(s)|);
  }

  lemma ShiftedByOne(x: nat, y: nat, pad: nat)
    requires x == y * Pow2(pad) && pad == 1
    ensures x == 2 * y
  {
  }

  /** An encoded name spells the hash, shifted left by one bit, in the lower-case alphabet of section 6 of RFC 4648. */
  lemma EncodedSpells(s: seq<Byte>, i: nat)
    requires i < 13
    ensures |EncodeTenantName(s)| == |Encode(Digest(s))| == 13 && Encode(Digest(s))[i] < 32
    ensures Number(Encode(Digest(s)), 5) == 2 * Fnv1a(s)
    ensures EncodeTenantName(s)[i] == "abcdefghijklmnopqrstuvwxyz234567"[Encode(Digest(s))[i]]
  {
    DigestEncoded(s);
    EncodedLength(Digest(s));
    Spells(Encode(Digest(s))[i]);
  }

  lemma Spells(d: nat)
    requires d < 32
    ensures LowerChar(d) == "abcdefghijklmnopqrstuvwxyz234567"[d]
  {
  }

  /** The encoding neither creates nor hides a collision of the hash. */
  lemma EncodedEqualExactlyWhen(a: seq<Byte>, b: seq<Byte>)
    ensures EncodeTenantName(a) == EncodeTenantName(b) <==> Fnv1a(a) == Fnv1a(b)
  {
    EncodedLength(Digest(a));
    EncodedLength(Digest(b));
    TextInjective(Encode(Digest(a)), Encode(Digest(b)));
    RoundTrip(Digest(a));
    RoundTrip(Digest(b));
    DigestInjective(a, b);
  }

  /** Every encoded name has 13 characters from a-z and 2-7. */
  lemma EncodedShape(s: seq<Byte>)
    ensures |EncodeTenantName(s)| == 13
    ensures forall i :: 0 <= i < 13 ==> IsNameChar(EncodeTenantName(s)[i])
  {
    DigestLength(s);
    EncodedLength(Digest(s));
  }

  /** The project, a hyphen and the encoded tenant name, in this order and nothing else. */
  lemma NamespaceNameSpells(project: string, tenant: seq<Byte>)
    ensures var n := NamespaceName(project, tenant);
            && |n| == |project| + 14
            && n[..|project|] == project && n[|project|] == '-' && n[|project| + 1..] == EncodeTenantName(tenant)
  {
    EncodedShape(tenant);
  }

  /** A namespace name determines its project and the encoded tenant name. */
  lemma NamespaceNameEqualExactlyWhen(p1: string, t1: seq<Byte>, p2: string, t2: seq<Byte>)
    ensures NamespaceName(p1, t1) == NamespaceName(p2, t2) <==> p1 == p2 && Fnv1a(t1) == Fnv1a(t2)
  {
    EncodedShape(t1);
    EncodedShape(t2);
    EncodedEqualExactlyWhen(t1, t2);
    var n1, n2 := NamespaceName(p1, t1), NamespaceName(p2, t2);
    assert n1[..|n1| - 14] == p1 && n1[|n1| - 13..] == EncodeTenantName(t1);
    assert n2[..|n2| - 14] == p2 && n2[|n2| - 13..] == EncodeTenantName(t2);
  }

  /** Tenants whose names have equal length and differ in one byte never share an encoded name or a namespace. */
  lemma OneByteTenantsAreSeparate(project: string, a: seq<Byte>, b: seq<Byte>, i: nat)
    requires DifferInOneByte(a, b, i)
    ensures EncodeTenantName(a) != EncodeTenantName(b)
    ensures NamespaceName(project, a) != NamespaceName(project, b)
  {
    OneByteNeverCollides(a, b, i);
    EncodedEqualExactlyWhen(a, b);
    NamespaceNameEqualExactlyWhen(project, a, project, b);
  }

  // ---------- the desired configuration version ----------

  function HexChar(d: nat): char {
    if d < 10 then ('0' as int + d) as char else if d < 16 then ('a' as int + d - 10) as char else '?'
  }

  /** hex.EncodeToString: two digits a byte. */
  function Hex(b: seq<Byte>): string {
    if b == [] then "" else Hex(b[..|b| - 1]) + [HexChar(b[|b| - 1] / 16), HexChar(b[|b| - 1] % 16)]
  }

  function DesiredConfigVersion(specJSON: seq<Byte>): string {
    Hex(Digest(specJSON))
  }

  lemma {:induction false} HexLength(a: seq<Byte>)
    ensures |Hex(a)| == 2 * |a|
  {
    if a == [] {
    } else {
      HexLength(a[..|a| - 1]);
    }
  }

  /** The digits of each byte, the high half first. */
  lemma {:induction false} HexSpells(a: seq<Byte>, i: nat)
    requires i < |a|
    ensures |Hex(a)| == 2 * |a|
    ensures Hex(a)[2 * i] == "0123456789abcdef"[a[i] / 16] && Hex(a)[2 * i + 1] == "0123456789abcdef"[a[i] % 16]
  {
    HexLength(a);
    var n := |a| - 1;
    HexLength(a[..n]);
    if i < n {
      HexSpells(a[..n], i);
    }
  }

  lemma {:induction false} HexInjective(a: seq<Byte>, b: seq<Byte>)
    requires |a| == |b|
    ensures Hex(a) == Hex(b) <==> a == b
  {
    if a != [] && Hex(a) == Hex(b) {
      var n := |a| - 1;
      HexLength(a[..n]);
      HexLength(b[..n]);
      HexInjective(a[..n], b[..n]);
      assert Hex(a)[..2 * n] == Hex(a[..n]) && Hex(b)[..2 * n] == Hex(b[..n]);
      assert Hex(a)[2 * n] == Hex(b)[2 * n] && Hex(a)[2 * n + 1] == Hex(b)[2 * n + 1];
      assert a == a[..n] + [a[n]] && b == b[..n] + [b[n]];
    }
  }

  /** Specs whose JSON has equal length and differs in one byte get different versions. */
  lemma OneByteSpecsDiffer(a: seq<Byte>, b: seq<Byte>, i: nat)
    requires DifferInOneByte(a, b, i)
    ensures DesiredConfigVersion(a) != DesiredConfigVersion(b)
    ensures |DesiredConfigVersion(a)| == 16
  {
    OneByteNeverCollides(a, b, i);
    DigestInjective(a, b);
    DigestLength(a);
    DigestLength(b);
    HexInjective(Digest(a), Digest(b));
    HexLength(Digest(a));
  }

  /** The version spells the hash of the spec in sixteen hexadecimal digits. */
  lemma VersionSpells(specJSON: seq<Byte>, i: nat)
    requires i < 8
    ensures |Digest(specJSON)| == 8 && |DesiredConfigVersion(specJSON)| == 16
    ensures Number(Digest(specJSON), 8) == Fnv1a(specJSON)
    ensures DesiredConfigVersion(specJSON)[2 * i] == "0123456789abcdef"[Digest(specJSON)[i] / 16]
    ensures DesiredConfigVersion(specJSON)[2 * i + 1] == "0123456789abcdef"[Digest(specJSON)[i] % 16]
  {
    DigestLength(specJSON);
    DigestIsBigEndian(specJSON);
    HexSpells(Digest(specJSON), i);
  }
}
