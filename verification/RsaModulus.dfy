/**
 The bit length of an RSA modulus taken from its DER INTEGER bytes (section 8.3 of X.690), and the
 weak-key finding that depends on it.
 */
module RsaModulus {
  import opened Powers
  import opened Wrappers

  const WEAK_BITS: nat := 2048
  const RSA_ENCRYPTION_OID: string := "1.2.840.113549.1.1.1"

  type Octets = seq<nat>

  predicate AreOctets(s: Octets) {
    forall i :: 0 <= i < |s| ==> s[i] < 256
  }

  /** The unsigned big-endian value. */
  function Unsigned(s: Octets): nat {
    if s == [] then 0 else Unsigned(s[..|s| - 1]) * 256 + s[|s| - 1]
  }

  /** The value of an INTEGER's contents: two's complement, big-endian. */
  function Signed(s: Octets): int {
    if s != [] && s[0] >= 128 then Unsigned(s) - Pow2(8 * |s|) else Unsigned(s)
  }

  function LeadingZeros(octet: nat): (n: nat)
    requires octet < 256
    ensures n <= 8
  {
    if octet >= 128 then 0 else if octet >= 64 then 1 else if octet >= 32 then 2
    else if octet >= 16 then 3 else if octet >= 8 then 4 else if octet >= 4 then 5
    else if octet >= 2 then 6 else if octet == 1 then 7 else 8
  }

  function RsaModulusBits(modulus: Octets): Option<nat>
    requires AreOctets(modulus)
  {
    if |modulus| >= 2 && modulus[0] == 0 && modulus[1] >= 128 then UnsignedBits(modulus[1..])
    else if modulus == [] || modulus[0] == 0 then None
    else if modulus[0] >= 128 then None
    else UnsignedBits(modulus)
  }

  function UnsignedBits(s: Octets): Option<nat>
    requires AreOctets(s) && s != []
  {
    Some((|s| - 1) * 8 + (8 - LeadingZeros(s[0])))
  }

  // ----- Magnitudes -----

  lemma PowOctet(n: nat)
    ensures Pow2(n + 8) == 256 * Pow2(n)
  {
    PowAdd(8, n);
    assert Pow2(8) == 256 by { PowAdd(4, 4); }
  }

  /** One octet more scales a value between two multiples of p. */
  lemma Shift(first: nat, p: nat, value: nat, octet: nat)
    requires first * p <= value < (first + 1) * p && octet < 256
    ensures first * (256 * p) <= value * 256 + octet < (first + 1) * (256 * p)
  {
    assert first * (256 * p) == 256 * (first * p);
    assert (first + 1) * (256 * p) == 256 * ((first + 1) * p);
  }

  /** The first octet fixes the value up to what the other octets can add. */
  lemma {:induction false} FirstOctet(s: Octets)
    requires AreOctets(s) && s != []
    ensures s[0] * Pow2(8 * (|s| - 1)) <= Unsigned(s) < (s[0] + 1) * Pow2(8 * (|s| - 1))
  {
    if |s| > 1 {
      var front := s[..|s| - 1];
      var p := Pow2(8 * (|s| - 2));
      FirstOctet(front);
      PowOctet(8 * (|s| - 2));
      Shift(s[0], p, Unsigned(front), s[|s| - 1]);
    }
  }

  lemma OctetBits(octet: nat)
    requires 0 < octet < 256
    ensures LeadingZeros(octet) < 8
    ensures Pow2(7 - LeadingZeros(octet)) <= octet < Pow2(8 - LeadingZeros(octet))
  {
    assert Pow2(0) == 1 && Pow2(1) == 2 && Pow2(2) == 4 && Pow2(3) == 8 && Pow2(4) == 16;
    assert Pow2(5) == 2 * Pow2(4) && Pow2(6) == 2 * Pow2(5) && Pow2(7) == 2 * Pow2(6) && Pow2(8) == 2 * Pow2(7);
  }

  lemma UnsignedBitsExact(s: Octets)
    requires AreOctets(s) && s != [] && s[0] > 0
    ensures var b := UnsignedBits(s).value; b > 0 && Pow2(b - 1) <= Unsigned(s) < Pow2(b)
  {
    hide Pow2, Unsigned, LeadingZeros;
    var rest, lead := 8 * (|s| - 1), 8 - LeadingZeros(s[0]);
    OctetBits(s[0]);
    FirstOctet(s);
    PowAdd(lead - 1, rest);
    PowAdd(lead, rest);
    Scale(Pow2(lead - 1), s[0], Pow2(rest));
    Scale(s[0] + 1, Pow2(lead), Pow2(rest));
  }

  lemma {:induction false} DropZero(s: Octets)
    requires AreOctets(s) && s != [] && s[0] == 0
    ensures Unsigned(s[1..]) == Unsigned(s)
  {
    if |s| > 1 {
      DropZero(s[..|s| - 1]);
      assert s[..|s| - 1][1..] == s[1..][..|s| - 2];
    } else {
      assert s[..0] == [];
    }
  }

  // ----- Main results -----

  /** The reported length b of an accepted modulus is exact: 2^(b-1) <= value < 2^b. */
  lemma BitsAreExact(modulus: Octets)
    requires AreOctets(modulus) && RsaModulusBits(modulus).Some?
    ensures var b := RsaModulusBits(modulus).value;
            b > 0 && Signed(modulus) == Unsigned(modulus) && Pow2(b - 1) <= Signed(modulus) < Pow2(b)
  {
    if modulus[0] == 0 {
      DropZero(modulus);
      UnsignedBitsExact(modulus[1..]);
    } else {
      UnsignedBitsExact(modulus);
    }
  }

  /** Some shorter string of octets encodes the same integer. */
  ghost predicate HasShorterEncoding(s: Octets) {
    exists t: Octets :: AreOctets(t) && 0 < |t| < |s| && Signed(t) == Signed(s)
  }

  lemma NegativeIsNegative(s: Octets)
    requires AreOctets(s) && s != [] && s[0] >= 128
    ensures Signed(s) < 0
  {
    var p := Pow2(8 * (|s| - 1));
    FirstOctet(s);
    PowOctet(8 * (|s| - 1));
    Scale(s[0] + 1, 256, p);
  }

  lemma PaddedIsRejected(s: Octets)
    requires AreOctets(s) && s != [] && s[0] == 0 && (|s| == 1 || s[1] < 128)
    ensures Signed(s) <= 0 || HasShorterEncoding(s)
  {
    DropZero(s);
    if |s| == 1 {
      assert s[1..] == [];
    } else {
      assert AreOctets(s[1..]) && Signed(s[1..]) == Signed(s);
    }
  }

  /** n octets cannot hold an integer of 8n bits or more besides the sign. */
  lemma SignedBelow(t: Octets)
    requires AreOctets(t) && t != []
    ensures Signed(t) < Pow2(8 * |t| - 1)
  {
    if t[0] >= 128 {
      NegativeIsNegative(t);
    } else {
      var p := Pow2(8 * (|t| - 1));
      FirstOctet(t);
      PowOctet(8 * (|t| - 1));
      assert Pow2(8 * |t|) == 2 * Pow2(8 * |t| - 1);
      Scale(t[0] + 1, 128, p);
    }
  }

  lemma AcceptedIsShortest(modulus: Octets)
    requires AreOctets(modulus) && RsaModulusBits(modulus).Some?
    ensures !HasShorterEncoding(modulus)
  {
    BitsAreExact(modulus);
    var b := RsaModulusBits(modulus).value;
    forall t: Octets | AreOctets(t) && 0 < |t| < |modulus| ensures Signed(t) != Signed(modulus) {
      SignedBelow(t);
      PowMonotone(8 * |t| - 1, b - 1);
    }
  }

  /** Accepted are exactly the shortest encodings of positive integers: empty, zero, negative and
      non-minimal encodings are all and only what is rejected. */
  lemma AcceptsExactly(modulus: Octets)
    requires AreOctets(modulus)
    ensures RsaModulusBits(modulus).Some? <==>
            modulus != [] && Signed(modulus) > 0 && !HasShorterEncoding(modulus)
  {
    if modulus == [] {
    } else if modulus[0] >= 128 {
      NegativeIsNegative(modulus);
    } else if modulus[0] == 0 && (|modulus| == 1 || modulus[1] < 128) {
      PaddedIsRejected(modulus);
    } else {
      AcceptedIsShortest(modulus);
      BitsAreExact(modulus);
    }
  }

  // ----- The weak-key finding -----

  predicate WeakRsaFinding(algorithm: Option<string>, bits: Option<nat>) {
    algorithm == Some(RSA_ENCRYPTION_OID) && bits.Some? && bits.value != 0 && bits.value < WEAK_BITS
  }

  lemma BitsBelow(modulus: Octets, b: nat, limit: nat)
    requires 0 < b && 0 < limit
    requires Pow2(b - 1) <= Signed(modulus) < Pow2(b)
    ensures b < limit <==> Signed(modulus) < Pow2(limit - 1)
  {
    if b < limit {
      PowMonotone(b, limit - 1);
    } else {
      PowMonotone(limit - 1, b - 1);
    }
  }

  /** For an rsaEncryption key with an accepted modulus, the finding is raised exactly when the
      modulus is below 2^2047. */
  lemma WeakExactly(modulus: Octets)
    requires AreOctets(modulus) && RsaModulusBits(modulus).Some?
    ensures WeakRsaFinding(Some(RSA_ENCRYPTION_OID), RsaModulusBits(modulus)) <==> Signed(modulus) < Pow2(WEAK_BITS - 1)
  {
    BitsAreExact(modulus);
    BitsBelow(modulus, RsaModulusBits(modulus).value, WEAK_BITS);
  }
}
