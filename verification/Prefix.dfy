/**
 CIDR prefixes over 32- and 128-bit addresses: mask arithmetic, canonical form and longest match.
 Addresses are the unsigned integers the source compares; `&` and `<<` are spelled out bit by bit.
 */
module Prefix {
  import opened Powers
  import opened Wrappers

  datatype Family = V4 | V6

  function Width(family: Family): nat {
    match family case V4 => 32 case V6 => 128
  }

  /** Bitwise and. */
  function And(x: nat, y: nat): nat {
    if x == 0 || y == 0 then 0 else x % 2 * (y % 2) + 2 * And(x / 2, y / 2)
  }

  /** `<<` in a word of the given width: high bits fall off. */
  function ShiftLeft(x: nat, k: nat, width: nat): nat {
    x * Pow2(k) % Pow2(width)
  }

  datatype Address = Address(family: Family, value: nat)

  predicate ValidAddress(address: Address) {
    address.value < Pow2(Width(address.family))
  }

  datatype Prefix = Prefix(network: Address, length: nat)

  predicate ValidPrefix(prefix: Prefix) {
    ValidAddress(prefix.network) && prefix.length <= Width(prefix.network.family)
  }

  /** The mask; length 0 is separate because a shift by the full width is not defined. */
  function Mask(family: Family, length: nat): nat
    requires length <= Width(family)
  {
    if length == 0 then 0
    else ShiftLeft(Pow2(Width(family)) - 1, Width(family) - length, Width(family))
  }

  function Contains(prefix: Prefix, address: Address): bool
    requires ValidPrefix(prefix)
  {
    && prefix.network.family == address.family
    && var mask := Mask(prefix.network.family, prefix.length);
       And(prefix.network.value, mask) == And(address.value, mask)
  }

  /** The prefix that the canonical text denotes: the masked network. */
  function Canonical(prefix: Prefix): Prefix
    requires ValidPrefix(prefix)
  {
    var mask := Mask(prefix.network.family, prefix.length);
    Prefix(Address(prefix.network.family, And(prefix.network.value, mask)), prefix.length)
  }

  /** Parsing after the address and the length were read: only the length is left to check. The
      bound of the byte it is read as never matters, and what is accepted is a valid prefix. */
  function ParsePrefix(address: Option<Address>, length: Option<nat>): (r: Option<Prefix>)
    requires address.Some? ==> ValidAddress(address.value)
    ensures r.Some? <==> address.Some? && length.Some? && length.value <= Width(address.value.family)
    ensures r.Some? ==> ValidPrefix(r.value) && address == Some(r.value.network) && length == Some(r.value.length)
  {
    if address.None? || length.None? || length.value > 255 then None
    else if length.value > Width(address.value.family) then None
    else Some(Prefix(address.value, length.value))
  }

  // ----- What the mask does -----

  /** The first address of the block of 2^k addresses around x. */
  function BlockStart(x: int, k: nat): int { x / Pow2(k) * Pow2(k) }

  /** A word of w bits with ones above the low k. */
  function HighOnes(w: nat, k: nat): nat
    requires k <= w
  {
    PowMonotone(k, w);
    Pow2(w) - Pow2(k)
  }

  lemma ShiftedOnes(p: nat, q: nat)
    ensures (p - 1) * q == (q - 1) * p + (p - q)
  {
  }

  /** The mask of a non-zero length is all ones above the k host bits. */
  lemma MaskValue(family: Family, length: nat)
    requires length <= Width(family)
    ensures Mask(family, length) == HighOnes(Width(family), Width(family) - length)
  {
    hide Pow2;
    var w, k := Width(family), Width(family) - length;
    if length > 0 {
      PowMonotone(k, w);
      ShiftedOnes(Pow2(w), Pow2(k));
      ModOf((Pow2(w) - 1) * Pow2(k), Pow2(k) - 1, Pow2(w) - Pow2(k), Pow2(w));
    }
  }

  lemma {:induction false} AndOnes(x: nat, n: nat)
    requires x < Pow2(n)
    ensures And(x, Pow2(n) - 1) == x
  {
    if n > 0 && x > 0 {
      assert (Pow2(n) - 1) / 2 == Pow2(n - 1) - 1 && (Pow2(n) - 1) % 2 == 1;
      AndOnes(x / 2, n - 1);
    }
  }

  lemma HalveBlock(x: nat, k: nat)
    requires k > 0
    ensures BlockStart(x, k) == 2 * BlockStart(x / 2, k - 1)
  {
    var p := Pow2(k - 1);
    var q, r := x / 2 / p, x / 2 % p;
    assert x / 2 == q * p + r;
    assert x == q * (2 * p) + (2 * r + x % 2);
    ModOf(x, q, 2 * r + x % 2, 2 * p);
    assert q * (2 * p) == 2 * (q * p);
  }

  /** And-ing with ones above k bits clears the low k bits. */
  lemma {:induction false} AndClears(x: nat, w: nat, k: nat)
    requires x < Pow2(w) && k <= w
    ensures And(x, HighOnes(w, k)) == BlockStart(x, k)
    decreases w
  {
    if k == 0 {
      AndOnes(x, w);
    } else {
      PowMonotone(k, w);
      var y := Pow2(w) - Pow2(k);
      assert y / 2 == Pow2(w - 1) - Pow2(k - 1) && y % 2 == 0;
      AndClears(x / 2, w - 1, k - 1);
      HalveBlock(x, k);
      if x == 0 {
        ModOf(0, 0, 0, Pow2(k));
      } else if y == 0 {
        if k < w {
          PowStrict(k, w);
        }
        ModOf(x, 0, x, Pow2(k));
      }
    }
  }

  /** The block an address is in: its masked value is the block's first address. */
  lemma MaskedIsBlockStart(address: Address, length: nat)
    requires ValidAddress(address) && length <= Width(address.family)
    ensures And(address.value, Mask(address.family, length)) ==
            BlockStart(address.value, Width(address.family) - length)
  {
    MaskValue(address.family, length);
    AndClears(address.value, Width(address.family), Width(address.family) - length);
  }

  // ----- Main results -----

  function First(prefix: Prefix): nat
    requires ValidPrefix(prefix)
  {
    And(prefix.network.value, Mask(prefix.network.family, prefix.length))
  }

  function Last(prefix: Prefix): nat
    requires ValidPrefix(prefix)
  {
    First(prefix) + (Pow2(Width(prefix.network.family) - prefix.length) - 1)
  }

  lemma SameBlock(x: nat, y: nat, k: nat)
    ensures BlockStart(x, k) == BlockStart(y, k) <==> BlockStart(x, k) <= y <= BlockStart(x, k) + (Pow2(k) - 1)
  {
    var p := Pow2(k);
    var q := x / p;
    if q * p <= y <= q * p + (p - 1) {
      ModOf(y, q, y - q * p, p);
    }
  }

  /** Containment is lying between the masked network and the last address of its block. */
  lemma ContainsIsInterval(prefix: Prefix, address: Address)
    requires ValidPrefix(prefix) && ValidAddress(address)
    ensures Contains(prefix, address) <==>
            prefix.network.family == address.family && First(prefix) <= address.value <= Last(prefix)
  {
    if prefix.network.family == address.family {
      MaskedIsBlockStart(prefix.network, prefix.length);
      MaskedIsBlockStart(address, prefix.length);
      SameBlock(prefix.network.value, address.value, Width(address.family) - prefix.length);
    }
  }

  /** The canonical prefix has the same addresses, is its own canonical form, and no host bits. */
  lemma CanonicalKeepsAddresses(prefix: Prefix, address: Address)
    requires ValidPrefix(prefix) && ValidAddress(address)
    ensures ValidPrefix(Canonical(prefix)) && Canonical(Canonical(prefix)) == Canonical(prefix)
    ensures Contains(Canonical(prefix), address) <==> Contains(prefix, address)
    ensures Canonical(prefix).network.value % Pow2(Width(prefix.network.family) - prefix.length) == 0
  {
    hide Mask, And, Pow2;
    var k := Width(prefix.network.family) - prefix.length;
    var x := prefix.network.value;
    MaskedIsBlockStart(prefix.network, prefix.length);
    assert BlockStart(x, k) <= x;
    ModOf(BlockStart(x, k), x / Pow2(k), 0, Pow2(k));
    MaskedIsBlockStart(Canonical(prefix).network, prefix.length);
  }

  lemma Split(x: int, m: int)
    requires m > 0
    ensures x == x / m * m + x % m
  {
  }

  lemma Distribute(a: int, b: int, p: int, q: int)
    ensures (a * q + b) * p == a * (q * p) + b * p
  {
  }

  lemma NonNegative(b: int, p: int)
    requires b >= 0 && p > 0
    ensures b * p >= 0
  {
  }

  /** Dividing by a product is dividing twice, on x and on the start of its finer block alike. */
  lemma Regroup(x: nat, p: int, q: int)
    requires p > 0 && q > 0
    ensures q * p > 0
    ensures x / (q * p) == x / p / q
    ensures x / p * p / (q * p) == x / p / q
  {
    var a, b, r := x / p / q, x / p % q, x % p;
    Split(x / p, q);
    Split(x, p);
    Distribute(a, b, p, q);
    AtLeast(q - b, p);
    AtLeast(q, p);
    assert (q - b) * p == q * p - b * p;
    NonNegative(b, p);
    ModOf(x, a, b * p + r, q * p);
    ModOf(x / p * p, a, b * p, q * p);
  }

  /** The coarser block of x is the coarser block of its finer block. */
  lemma CoarserBlock(x: nat, j: nat, k: nat)
    requires j <= k
    ensures BlockStart(x, k) == BlockStart(BlockStart(x, j), k)
  {
    PowAdd(k - j, j);
    Regroup(x, Pow2(j), Pow2(k - j));
  }

  /** A longer prefix that shares one address lies inside the shorter one. */
  lemma SharedAddressNests(short: Prefix, long: Prefix, shared: Address, address: Address)
    requires ValidPrefix(short) && ValidPrefix(long) && short.length <= long.length
    requires ValidAddress(shared) && Contains(short, shared) && Contains(long, shared)
    requires ValidAddress(address) && Contains(long, address)
    ensures Contains(short, address)
  {
    var w := Width(shared.family);
    var j, k := w - long.length, w - short.length;
    MaskedIsBlockStart(short.network, short.length);
    MaskedIsBlockStart(long.network, long.length);
    MaskedIsBlockStart(shared, short.length);
    MaskedIsBlockStart(shared, long.length);
    MaskedIsBlockStart(address, short.length);
    MaskedIsBlockStart(address, long.length);
    CoarserBlock(address.value, j, k);
    CoarserBlock(shared.value, j, k);
  }

  // ----- Longest match -----

  datatype Entry<T> = Entry(prefix: Prefix, endpoint: T)

  predicate ValidEntries<T>(entries: seq<Entry<T>>) {
    forall i :: 0 <= i < |entries| ==> ValidPrefix(entries[i].prefix)
  }

  /** `max_by_key` over the matching entries: of several longest ones, the last. */
  method LongestMatch<T>(address: Address, entries: seq<Entry<T>>) returns (best: Option<nat>)
    requires ValidEntries(entries)
    ensures best.None? <==> forall i :: 0 <= i < |entries| ==> !Contains(entries[i].prefix, address)
    ensures best.Some? ==> IsLongestMatch(address, entries, best.value)
  {
    hide Contains;
    best := None;
    for i := 0 to |entries|
      invariant best.None? <==> forall j :: 0 <= j < i ==> !Contains(entries[j].prefix, address)
      invariant best.Some? ==> best.value < i && IsLongestMatch(address, entries[..i], best.value)
    {
      assert forall j :: 0 <= j < i ==> entries[..i + 1][j] == entries[..i][j];
      if Contains(entries[i].prefix, address) {
        if best.None? || entries[best.value].prefix.length <= entries[i].prefix.length {
          best := Some(i);
        }
      }
    }
    assert entries[..|entries|] == entries;
  }

  /** The endpoint of the longest match only: if that entry has none, no shorter one is tried. */
  method LongestBootstrapEndpoint(address: Address, entries: seq<Entry<Option<string>>>)
    returns (endpoint: Option<string>)
    requires ValidEntries(entries)
    ensures forall best: nat :: IsLongestMatch(address, entries, best) ==> endpoint == entries[best].endpoint
    ensures endpoint.Some? ==> exists best: nat :: IsLongestMatch(address, entries, best)
  {
    hide Contains;
    var best := LongestMatch(address, entries);
    endpoint := if best.Some? then entries[best.value].endpoint else None;
    forall other: nat | IsLongestMatch(address, entries, other)
      ensures endpoint == entries[other].endpoint
    {
      assert best.Some? && other <= best.value <= other;
    }
  }

  predicate IsLongestMatch<T>(address: Address, entries: seq<Entry<T>>, best: nat)
    requires ValidEntries(entries)
  {
    && best < |entries| && Contains(entries[best].prefix, address)
    && forall j :: 0 <= j < |entries| && Contains(entries[j].prefix, address) ==>
         || entries[j].prefix.length < entries[best].prefix.length
         || (entries[j].prefix.length == entries[best].prefix.length && j <= best)
  }

  /** Every address of the chosen prefix lies in every other matching prefix. */
  lemma LongestIsInnermost<T>(address: Address, entries: seq<Entry<T>>, best: nat, i: nat, other: Address)
    requires ValidEntries(entries) && ValidAddress(address) && ValidAddress(other)
    requires IsLongestMatch(address, entries, best)
    requires i < |entries| && Contains(entries[i].prefix, address)
    requires Contains(entries[best].prefix, other)
    ensures Contains(entries[i].prefix, other)
  {
    SharedAddressNests(entries[i].prefix, entries[best].prefix, address, other);
  }
}
