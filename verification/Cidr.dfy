/** Address blocks in CIDR notation and the membership test the bridge scan uses
    (section 3.1 of RFC 4632). IPv4 and IPv6 addresses never contain each other. */
module Cidr {

  function Pow2(n: nat): (p: nat)
    ensures p > 0
  {
    if n == 0 then 1 else 2 * Pow2(n - 1)
  }

  function Width(v6: bool): nat {
    if v6 then 128 else 32
  }

  lemma Multiples(x: int, d: int)
    requires d > 0
    ensures x >= 1 ==> x * d >= d
    ensures x <= -1 ==> x * d <= -d
  {
    if x >= 1 {
      assert x * d == (x - 1) * d + d;
    } else if x <= -1 {
      assert x * d == (x + 1) * d - d;
    }
  }

  lemma ModAtMost(a: nat, d: nat)
    requires d > 0
    ensures a % d <= a
  {
    var q := a / d;
    assert a == q * d + a % d;
    Multiples(q, d);
  }

  /** An interface address or subnet: `ip` may have host bits set. */
  datatype Block = Block(v6: bool, ip: nat, ones: nat) {
    ghost predicate Valid() {
      ones <= Width(v6) && ip < Pow2(Width(v6))
    }

    /** The number of addresses in the block. */
    function Size(): (s: nat)
      requires Valid()
      ensures s > 0
    {
      Pow2(Width(v6) - ones)
    }

    /** The address with its host bits cleared, which is what parsing a subnet keeps. */
    function Network(): (n: nat)
      requires Valid()
      ensures n <= ip
    {
      ModAtMost(ip, Size());
      ip - ip % Size()
    }

    /** Same family and same leading `ones` bits. */
    predicate Contains(family: bool, a: nat)
      requires Valid()
    {
      family == v6 && a / Size() == ip / Size()
    }
  }

  /** The test made for one subnet and one bridge address. */
  predicate Clashes(bridge: Block, subnet: Block)
    requires bridge.Valid() && subnet.Valid()
  {
    bridge.Contains(subnet.v6, subnet.Network()) || subnet.Contains(bridge.v6, bridge.ip)
  }

  /** Some address belongs to both blocks. */
  ghost predicate Overlap(b: Block, c: Block)
    requires b.Valid() && c.Valid()
  {
    exists family: bool, a: nat {:trigger b.Contains(family, a)} ::
      a < Pow2(Width(family)) && b.Contains(family, a) && c.Contains(family, a)
  }

  lemma {:induction false} Pow2Split(x: nat, y: nat)
    ensures Pow2(x + y) == Pow2(x) * Pow2(y)
  {
    if x > 0 {
      Pow2Split(x - 1, y);
      assert Pow2(x + y) == 2 * (Pow2(x - 1) * Pow2(y));
    }
  }

  lemma DivUnique(a: int, d: int, q: int)
    requires d > 0 && q * d <= a < q * d + d
    ensures a / d == q
  {
    var k := a / d;
    assert (k - q) * d == k * d - q * d;
    Multiples(k - q, d);
  }

  lemma Regroup(v: int, k: int, q: int, w: int)
    requires 0 <= w < k && q > 0
    ensures v * (k * q) <= (v * k + w) * q
    ensures (v * k + w) * q + q <= v * (k * q) + k * q
  {
    assert (v * k + w) * q == v * (k * q) + w * q;
    assert (w + 1) * q <= k * q;
  }

  /** Dividing twice is dividing by the product. */
  lemma DivDiv(a: nat, q: nat, k: nat, d: nat)
    requires q > 0 && k > 0 && d == k * q && d > 0
    ensures a / d == (a / q) / k
  {
    var u := a / q;
    var v := u / k;
    var w := u % k;
    Regroup(v, k, q, w);
    assert v * k + w == u;
    assert u * q <= a < u * q + q;
    assert v * d <= u * q && u * q + q <= v * d + d;
    DivUnique(a, d, v);
  }

  /** Agreeing on a longer prefix implies agreeing on a shorter one. */
  lemma ShorterPrefix(a: nat, b: nat, x: nat, y: nat)
    requires y <= x && a / Pow2(y) == b / Pow2(y)
    ensures a / Pow2(x) == b / Pow2(x)
  {
    Pow2Split(x - y, y);
    DivDiv(a, Pow2(y), Pow2(x - y), Pow2(x));
    DivDiv(b, Pow2(y), Pow2(x - y), Pow2(x));
  }

  lemma NetworkInBlock(c: Block)
    requires c.Valid()
    ensures c.Contains(c.v6, c.Network())
  {
    var d := c.Size();
    assert c.ip == (c.ip / d) * d + c.ip % d;
    DivUnique(c.Network(), d, c.ip / d);
  }

  /** Two blocks of one family are nested or disjoint: if they share an address,
      the wider one contains all of the narrower one. */
  lemma NestedOrDisjoint(b: Block, c: Block, a: nat)
    requires b.Valid() && c.Valid() && b.v6 == c.v6 && b.ones <= c.ones
    requires b.Contains(b.v6, a) && c.Contains(c.v6, a)
    ensures forall x: nat | c.Contains(c.v6, x) :: b.Contains(b.v6, x)
  {
    forall x: nat | c.Contains(c.v6, x)
      ensures b.Contains(b.v6, x)
    {
      ShorterPrefix(x, a, Width(b.v6) - b.ones, Width(c.v6) - c.ones);
    }
  }

  /** The two membership tests decide overlap exactly. */
  lemma ClashesIffOverlap(b: Block, c: Block)
    requires b.Valid() && c.Valid()
    ensures Clashes(b, c) <==> Overlap(b, c)
  {
    NetworkInBlock(c);
    assert b.Contains(b.v6, b.ip);
    if Overlap(b, c) {
      var family: bool, a: nat :| a < Pow2(Width(family)) && b.Contains(family, a) && c.Contains(family, a);
      if b.ones <= c.ones {
        NestedOrDisjoint(b, c, a);
      } else {
        NestedOrDisjoint(c, b, a);
      }
    }
  }

  // ---------------------------------------------------------------------------
  // Prefixes as bits
  // ---------------------------------------------------------------------------

  /** Bit `i` of an address, counted from the least significant one. */
  predicate BitOf(a: nat, i: nat) {
    if i == 0 then a % 2 == 1 else BitOf(a / 2, i - 1)
  }

  /** Addresses of `n` bits are equal if all their bits are. */
  lemma {:induction false} SameBits(a: nat, b: nat, n: nat)
    requires a < Pow2(n) && b < Pow2(n) && forall i | 0 <= i < n :: BitOf(a, i) <==> BitOf(b, i)
    ensures a == b
  {
    if n > 0 {
      forall i | 0 <= i < n - 1 ensures BitOf(a / 2, i) <==> BitOf(b / 2, i) {
        assert BitOf(a, i + 1) <==> BitOf(b, i + 1);
      }
      SameBits(a / 2, b / 2, n - 1);
      assert BitOf(a, 0) <==> BitOf(b, 0);
    }
  }

  lemma DivNonNegative(a: nat, d: nat)
    requires d > 0
    ensures a / d >= 0
  {
    Multiples(a / d, d);
    assert a == (a / d) * d + a % d;
  }

  /** The leading bits, with the low `k` cut off. */
  function Shift(a: nat, k: nat): nat {
    DivNonNegative(a, Pow2(k));
    a / Pow2(k)
  }

  lemma ShiftOnce(a: nat, k: nat)
    requires k > 0
    ensures Shift(a, k) == Shift(a / 2, k - 1)
  {
    DivDiv(a, 2, Pow2(k - 1), Pow2(k));
  }

  lemma ShiftZero(a: nat)
    ensures Shift(a, 0) == a
  {
  }

  lemma {:induction false} ShiftBits(a: nat, k: nat, i: nat)
    ensures BitOf(Shift(a, k), i) <==> BitOf(a, i + k)
  {
    hide Shift;
    if k == 0 {
      ShiftZero(a);
    } else {
      ShiftOnce(a, k);
      ShiftBits(a / 2, k - 1, i);
    }
  }

  lemma ShiftFits(a: nat, n: nat, k: nat)
    requires a < Pow2(n) && k <= n
    ensures Shift(a, k) < Pow2(n - k)
  {
    Pow2Split(n - k, k);
    var q, d := Shift(a, k), Pow2(k);
    if q >= Pow2(n - k) {
      assert a == q * d + a % d;
      TimesMonotone(Pow2(n - k), q, d);
    }
  }

  lemma TimesMonotone(x: nat, y: nat, d: nat)
    requires x <= y
    ensures x * d <= y * d
  {
    assert y * d == x * d + (y - x) * d;
  }

  /** The bits of `a` and `b` from `k` up to `n` are the same. */
  ghost predicate SameFrom(a: nat, b: nat, k: nat, n: nat) {
    forall i | k <= i < n :: BitOf(a, i) <==> BitOf(b, i)
  }

  lemma LeadingBits(a: nat, b: nat, n: nat, k: nat)
    requires Shift(a, k) == Shift(b, k)
    ensures SameFrom(a, b, k, n)
  {
    hide Shift, BitOf;
    forall i | k <= i < n ensures BitOf(a, i) <==> BitOf(b, i) {
      ShiftBits(a, k, i - k);
      ShiftBits(b, k, i - k);
    }
  }

  lemma LeadingShift(a: nat, b: nat, n: nat, k: nat)
    requires a < Pow2(n) && b < Pow2(n) && k <= n && SameFrom(a, b, k, n)
    ensures Shift(a, k) == Shift(b, k)
  {
    hide Shift, BitOf;
    ShiftFits(a, n, k);
    ShiftFits(b, n, k);
    forall j | 0 <= j < n - k ensures BitOf(Shift(a, k), j) <==> BitOf(Shift(b, k), j) {
      ShiftBits(a, k, j);
      ShiftBits(b, k, j);
      assert BitOf(a, j + k) <==> BitOf(b, j + k);
    }
    SameBits(Shift(a, k), Shift(b, k), n - k);
  }

  /** A block contains exactly the addresses of its family with its leading bits: of 32 for
      IPv4, of 128 for IPv6. */
  lemma ContainsIffBits(b: Block, family: bool, a: nat)
    requires b.Valid() && (family == b.v6 ==> a < Pow2(if b.v6 then 128 else 32))
    ensures var bits := if b.v6 then 128 else 32;
      b.ones <= bits &&
      (b.Contains(family, a) <==>
        family == b.v6 && SameFrom(a, b.ip, bits - b.ones, bits))
  {
    hide Pow2, BitOf, SameFrom;
    if family == b.v6 {
      var bits: nat := if b.v6 then 128 else 32;
      var k := bits - b.ones;
      if Shift(a, k) == Shift(b.ip, k) {
        LeadingBits(a, b.ip, bits, k);
      }
      if SameFrom(a, b.ip, k, bits) {
        LeadingShift(a, b.ip, bits, k);
      }
    }
  }
}
