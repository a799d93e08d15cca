/** IPv4 and IPv6 networks as blocks of numbers: the prefix notation of section 3.1 of
    RFC 4632 and section 2.3 of RFC 4291. */
module Cidr {

  datatype Family = V4 | V6

  function Width(family: Family): nat {
    if family == V4 then 32 else 128
  }

  function Pow2(n: nat): (p: nat)
    ensures p >= 1
  {
    if n == 0 then 1 else 2 * Pow2(n - 1)
  }

  /** An address is a family and a number below two to the width of the family. */
  datatype IpAddr = IpAddr(family: Family, number: nat)

  predicate ValidAddr(a: IpAddr) {
    a.number < Pow2(Width(a.family))
  }

  /** A parsed CIDR. The address may have host bits set: they are kept. */
  datatype Net = Net(addr: IpAddr, prefix: nat)

  predicate ValidNet(n: Net) {
    ValidAddr(n.addr) && n.prefix <= Width(n.addr.family)
  }

  // --- Powers of two ------------------------------------------------------------------

  lemma {:induction false} Pow2Adds(a: nat, b: nat)
    ensures Pow2(a + b) == Pow2(a) * Pow2(b)
  {
    if a > 0 {
      Pow2Adds(a - 1, b);
      assert Pow2(a + b) == 2 * Pow2(a - 1 + b);
    }
  }

  // --- Division ---------------------------------------------------------------------------

  lemma MulMonotone(a: int, b: int, d: int)
    requires a <= b && d >= 0
    ensures a * d <= b * d
  {
  }

  lemma Quotient(x: nat, d: nat, q: int)
    requires d > 0
    ensures x / d == q <==> q * d <= x < q * d + d
  {
    var p := x / d;
    assert p * d <= x < p * d + d;
    if p < q { MulMonotone(p + 1, q, d); assert (p + 1) * d == p * d + d; }
    if q < p { MulMonotone(q + 1, p, d); assert (q + 1) * d == q * d + d; }
  }

  /** Clearing the low part of a number. */
  function BlockStart(x: nat, d: nat): (start: nat)
    requires d > 0
    ensures start <= x < start + d && start % d == 0
  {
    MulMod(x / d, d);
    (x / d) * d
  }

  lemma MulMod(q: nat, d: nat)
    requires d > 0
    ensures (q * d) % d == 0
  {
    Quotient(q * d, d, q);
  }

  /** `y` has the same quotient as `x` if it lies in the aligned block around `x`. */
  lemma SameQuotient(x: nat, y: nat, d: nat)
    requires d > 0
    ensures x / d == y / d <==> BlockStart(x, d) <= y < BlockStart(x, d) + d
  {
    Quotient(y, d, x / d);
  }

  /** Dividing in two steps. */
  lemma DivDiv(x: nat, a: nat, b: nat)
    requires a > 0 && b > 0
    ensures a * b > 0 && x / (a * b) == (x / a) / b
  {
    var y, q := x / a, x / a / b;
    Quotient(x, a, y);
    Quotient(y, b, q);
    NestedBounds(x, a, b, y, q);
    Quotient(x, a * b, q);
  }

  lemma Regroup(q: int, a: int, b: int)
    ensures (q * b) * a == q * (a * b)
    ensures (q * b + b) * a == q * (a * b) + a * b
  {
  }

  lemma NestedBounds(x: int, a: nat, b: nat, y: int, q: int)
    requires a > 0 && b > 0 && y * a <= x < y * a + a && q * b <= y < q * b + b
    ensures a * b > 0 && q * (a * b) <= x < q * (a * b) + a * b
  {
    Regroup(q, a, b);
    MulMonotone(q * b, y, a);
    MulMonotone(y + 1, q * b + b, a);
    assert (y + 1) * a == y * a + a;
    MulMonotone(1, b, a);
  }

  /** The aligned block around a number below `p * d` stays below it. */
  lemma BlockBelow(x: nat, p: nat, d: nat)
    requires d > 0 && x < p * d
    ensures BlockStart(x, d) + d <= p * d
  {
    var q := x / d;
    if q >= p { MulMonotone(p, q, d); }
    MulMonotone(q + 1, p, d);
    assert (q + 1) * d == q * d + d;
  }

  // --- The block of addresses of a network --------------------------------------------

  function HostBits(n: Net): nat
    requires ValidNet(n)
  {
    Width(n.addr.family) - n.prefix
  }

  function BlockSize(n: Net): (size: nat)
    requires ValidNet(n)
    ensures size >= 1
  {
    Pow2(HostBits(n))
  }

  function FirstOf(n: Net): nat
    requires ValidNet(n)
  {
    BlockStart(n.addr.number, BlockSize(n))
  }

  function LastOf(n: Net): nat
    requires ValidNet(n)
  {
    FirstOf(n) + BlockSize(n) - 1
  }

  predicate Contains(n: Net, a: IpAddr)
    requires ValidNet(n)
  {
    a.family == n.addr.family && FirstOf(n) <= a.number <= LastOf(n)
  }

  /** A network contains an address exactly if they agree on the prefix bits. */
  lemma ContainsByPrefix(n: Net, a: IpAddr)
    requires ValidNet(n)
    ensures Contains(n, a) <==>
            a.family == n.addr.family && a.number / BlockSize(n) == n.addr.number / BlockSize(n)
  {
    SameQuotient(n.addr.number, a.number, BlockSize(n));
  }

  lemma BlockInRange(n: Net)
    requires ValidNet(n)
    ensures LastOf(n) < Pow2(Width(n.addr.family))
  {
    Pow2Adds(n.prefix, HostBits(n));
    BlockBelow(n.addr.number, Pow2(n.prefix), BlockSize(n));
  }

  // --- Overlap ---------------------------------------------------------------------------

  predicate NetworksOverlap(l: Net, r: Net)
    requires ValidNet(l) && ValidNet(r)
  {
    l.addr.family == r.addr.family && (Contains(l, r.addr) || Contains(r, l.addr))
  }

  ghost predicate Intersect(l: Net, r: Net)
    requires ValidNet(l) && ValidNet(r)
  {
    exists a :: ValidAddr(a) && Contains(l, a) && Contains(r, a)
  }

  /** Prefix blocks are nested or disjoint: a block sharing an address with a block that
      is no smaller lies inside it. */
  lemma SharedAddressNests(big: Net, small: Net, shared: IpAddr, a: IpAddr)
    requires ValidNet(big) && ValidNet(small) && HostBits(small) <= HostBits(big)
    requires Contains(big, shared) && Contains(small, shared) && Contains(small, a)
    ensures Contains(big, a)
  {
    var d, m := BlockSize(small), Pow2(HostBits(big) - HostBits(small));
    Pow2Adds(HostBits(small), HostBits(big) - HostBits(small));
    ContainsByPrefix(big, shared);
    ContainsByPrefix(small, shared);
    ContainsByPrefix(small, a);
    DivDiv(shared.number, d, m);
    DivDiv(a.number, d, m);
    ContainsByPrefix(big, a);
  }

  /** The overlap test decides whether two networks share an address. */
  lemma OverlapIsIntersection(l: Net, r: Net)
    requires ValidNet(l) && ValidNet(r)
    ensures NetworksOverlap(l, r) <==> Intersect(l, r)
  {
    ContainsByPrefix(l, l.addr);
    ContainsByPrefix(r, r.addr);
    if Intersect(l, r) {
      var a :| ValidAddr(a) && Contains(l, a) && Contains(r, a);
      if HostBits(r) <= HostBits(l) {
        SharedAddressNests(l, r, a, r.addr);
      } else {
        SharedAddressNests(r, l, a, l.addr);
      }
    }
  }

  // --- network_bounds ----------------------------------------------------------------------

  /** Bitwise or of two non-negative numbers. */
  function BitOr(a: nat, b: nat): nat
    decreases a + b
  {
    if a == 0 && b == 0 then 0
    else (if a % 2 == 1 || b % 2 == 1 then 1 else 0) + 2 * BitOr(a / 2, b / 2)
  }

  /** Setting the low bits of a number whose low bits are clear adds the mask. */
  lemma {:induction false} OrOfClearLowBits(high: nat, k: nat)
    ensures BitOr(high * Pow2(k), Pow2(k) - 1) == high * Pow2(k) + Pow2(k) - 1
    decreases k, high
  {
    if k == 0 {
      if high > 0 {
        assert high * Pow2(0) == high;
        OrWithZero(high);
      }
    } else {
      var p := Pow2(k - 1);
      assert high * Pow2(k) == 2 * (high * p);
      OrOfClearLowBits(high, k - 1);
      assert (high * Pow2(k)) / 2 == high * p && (Pow2(k) - 1) / 2 == p - 1;
    }
  }

  lemma {:induction false} OrWithZero(a: nat)
    ensures BitOr(a, 0) == a
  {
    if a > 0 { OrWithZero(a / 2); }
  }

  const MAX_U128: nat := 0xffff_ffff_ffff_ffff_ffff_ffff_ffff_ffff

  lemma Pow2Of32()
    ensures Pow2(32) == 0x1_0000_0000
  {
    assert Pow2(8) == 256;
    Pow2Adds(8, 8);
    Pow2Adds(16, 16);
  }

  lemma MaxIsAllOnes()
    ensures MAX_U128 == Pow2(128) - 1
  {
    Pow2Of32();
    Pow2Adds(32, 32);
    Pow2Adds(64, 64);
  }

  /** The mask of `bits` host bits; the shift by 128 is special-cased. */
  function HostMask(bits: nat): (mask: nat)
    ensures mask == Pow2(bits) - 1
  {
    if bits == 128 then MaxIsAllOnes(); MAX_U128 else Pow2(bits) - 1
  }

  /** First and last address number as the code computes them: IPv4 from the library's
      network and broadcast addresses, IPv6 by setting the host bits with a mask. */
  function NetworkBounds(n: Net): (Family, nat, nat)
    requires ValidNet(n)
  {
    match n.addr.family
    case V4 => (V4, FirstOf(n), LastOf(n))
    case V6 => (V6, FirstOf(n), BitOr(FirstOf(n), HostMask(128 - n.prefix)))
  }

  lemma OrOfMultiple(start: nat, high: nat, d: nat, k: nat)
    requires d == Pow2(k) && start == high * d
    ensures BitOr(start, d - 1) == start + d - 1
  {
    OrOfClearLowBits(high, k);
  }

  lemma OrOfBlockStart(x: nat, d: nat, k: nat)
    requires d == Pow2(k) && d > 0
    ensures BitOr(BlockStart(x, d), d - 1) == BlockStart(x, d) + d - 1
  {
    OrOfMultiple(BlockStart(x, d), x / d, d, k);
  }

  lemma MaskedIsLast(n: Net, mask: nat)
    requires ValidNet(n) && mask == BlockSize(n) - 1
    ensures BitOr(FirstOf(n), mask) == LastOf(n)
  {
    OrOfBlockStart(n.addr.number, BlockSize(n), HostBits(n));
  }

  /** No case of the mask arithmetic goes wrong, from ::/0 to the all-ones address. */
  lemma BoundsAreTheBlock(n: Net)
    requires ValidNet(n)
    ensures NetworkBounds(n) == (n.addr.family, FirstOf(n), LastOf(n))
  {
    MaskedIsLast(n, HostMask(HostBits(n)));
  }

  // --- Addresses and numbers -----------------------------------------------------------------

  function NumberedAddress(a: IpAddr): (Family, nat) {
    (a.family, a.number)
  }

  /** The IPv4 case truncates its argument to 32 bits. */
  function NumberedIp(family: Family, number: nat): IpAddr {
    match family
    case V4 => IpAddr(V4, number % Pow2(32))
    case V6 => IpAddr(V6, number)
  }

  /** The order of addresses: every IPv4 address before every IPv6 address. */
  function Rank(a: IpAddr): nat {
    if a.family == V4 then a.number else 0x1_0000_0000 + a.number
  }

  lemma RankIsInjective(a: IpAddr, b: IpAddr)
    requires ValidAddr(a) && ValidAddr(b) && Rank(a) == Rank(b)
    ensures a == b
  {
    Pow2Of32();
  }
}
