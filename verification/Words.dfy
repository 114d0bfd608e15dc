/** IPv4 addresses as 32-bit words: the mask test on words in network order against the bits of the address. */
module Words {
  function Htonl(x: bv32): bv32 {
    (x << 24) | ((x << 8) & 0xFF_0000) | ((x >> 8) & 0xFF00) | (x >> 24)
  }

  /** The host-order mask of a prefix length. */
  function Mask4(prefix: bv32): bv32
    requires prefix <= 32
  {
    if prefix == 0 then 0 else 0xFFFF_FFFF << (32 - prefix)
  }

  /** The `i`-th bit of a host-order word, counted from its front. */
  function Front4(i: bv32): bv32
    requires i < 32
  {
    0x8000_0000 >> i
  }

  predicate Same(x: bv32, y: bv32, mask: bv32) {
    x & mask == y & mask
  }

  ghost predicate AgreeHost(x: bv32, y: bv32, prefix: bv32)
    requires prefix <= 32
  {
    forall i: bv32 :: i < prefix ==> Same(x, y, Front4(i))
  }

  /** The bytes of an address in the order of its text: the word holds the first at its low end. */
  function Octet(a: bv32, k: bv32): bv32
    requires k < 4
  {
    if k == 0 then a & 0xFF else if k == 1 then (a >> 8) & 0xFF else if k == 2 then (a >> 16) & 0xFF else a >> 24
  }

  /** The mask of the `i`-th bit in its byte. */
  function InOctet(i: bv32): bv32 {
    (0x80 as bv32) >> (i & 7)
  }

  /** The `i`-th bit of an address, counted from the front of its first byte. */
  function FromFront(a: bv32, i: bv32): bv32
    requires i < 32
  {
    Octet(a, i >> 3) & InOctet(i)
  }

  lemma FrontByOctet(i: bv32)
    requires i < 32
    ensures InOctet(i) <= 0xFF && i >> 3 < 4
    ensures i >> 3 == 0 ==> Front4(i) == InOctet(i) << 24
    ensures i >> 3 == 1 ==> Front4(i) == InOctet(i) << 16
    ensures i >> 3 == 2 ==> Front4(i) == InOctet(i) << 8
    ensures i >> 3 == 3 ==> Front4(i) == InOctet(i)
  {
  }

  lemma MaskedIsSmall(x: bv32, m: bv32)
    requires m <= 0xFF
    ensures x & m <= 0xFF
  {
  }

  lemma ShiftsKeep24(x: bv32, y: bv32)
    requires x <= 0xFF && y <= 0xFF
    ensures x << 24 == y << 24 <==> x == y
  {
  }

  lemma ShiftsKeep16(u: bv32, v: bv32, x: bv32, y: bv32)
    requires x <= 0xFF && y <= 0xFF && u == x << 16 && v == y << 16
    ensures u == v <==> x == y
  {
  }

  lemma ShiftsKeep8(u: bv32, v: bv32, x: bv32, y: bv32)
    requires x <= 0xFF && y <= 0xFF && u == x << 8 && v == y << 8
    ensures u == v <==> x == y
  {
  }

  lemma FirstMoves(a: bv32, m: bv32)
    requires m <= 0xFF
    ensures Htonl(a) & (m << 24) == (Octet(a, 0) & m) << 24
  {
  }

  lemma First(a: bv32, b: bv32, m: bv32)
    requires m <= 0xFF
    ensures Same(Htonl(a), Htonl(b), m << 24) <==> Same(Octet(a, 0), Octet(b, 0), m)
  {
    FirstMoves(a, m);
    FirstMoves(b, m);
    MaskedIsSmall(Octet(a, 0), m);
    MaskedIsSmall(Octet(b, 0), m);
    ShiftsKeep24(Octet(a, 0) & m, Octet(b, 0) & m);
  }

  lemma SecondMoves(a: bv32, m: bv32)
    requires m <= 0xFF
    ensures Htonl(a) & (m << 16) == (Octet(a, 1) & m) << 16
  {
  }

  lemma SecondMasked(a: bv32, b: bv32, m: bv32, u: bv32, v: bv32, x: bv32, y: bv32)
    requires m <= 0xFF && u == Htonl(a) & (m << 16) && v == Htonl(b) & (m << 16)
    requires x == Octet(a, 1) & m && y == Octet(b, 1) & m
    ensures u == v <==> x == y
  {
    SecondMoves(a, m);
    SecondMoves(b, m);
    MaskedIsSmall(Octet(a, 1), m);
    MaskedIsSmall(Octet(b, 1), m);
    ShiftsKeep16(u, v, x, y);
  }

  lemma Second(a: bv32, b: bv32, m: bv32)
    requires m <= 0xFF
    ensures Same(Htonl(a), Htonl(b), m << 16) <==> Same(Octet(a, 1), Octet(b, 1), m)
  {
    SecondMasked(a, b, m, Htonl(a) & (m << 16), Htonl(b) & (m << 16), Octet(a, 1) & m, Octet(b, 1) & m);
  }

  lemma ThirdMoves(a: bv32, m: bv32)
    requires m <= 0xFF
    ensures Htonl(a) & (m << 8) == (Octet(a, 2) & m) << 8
  {
  }

  lemma ThirdMasked(a: bv32, b: bv32, m: bv32, u: bv32, v: bv32, x: bv32, y: bv32)
    requires m <= 0xFF && u == Htonl(a) & (m << 8) && v == Htonl(b) & (m << 8)
    requires x == Octet(a, 2) & m && y == Octet(b, 2) & m
    ensures u == v <==> x == y
  {
    ThirdMoves(a, m);
    ThirdMoves(b, m);
    MaskedIsSmall(Octet(a, 2), m);
    MaskedIsSmall(Octet(b, 2), m);
    ShiftsKeep8(u, v, x, y);
  }

  lemma Third(a: bv32, b: bv32, m: bv32)
    requires m <= 0xFF
    ensures Same(Htonl(a), Htonl(b), m << 8) <==> Same(Octet(a, 2), Octet(b, 2), m)
  {
    ThirdMasked(a, b, m, Htonl(a) & (m << 8), Htonl(b) & (m << 8), Octet(a, 2) & m, Octet(b, 2) & m);
  }

  lemma FourthMoves(a: bv32, m: bv32)
    requires m <= 0xFF
    ensures Htonl(a) & m == Octet(a, 3) & m
  {
  }

  lemma Fourth(a: bv32, b: bv32, m: bv32)
    requires m <= 0xFF
    ensures Same(Htonl(a), Htonl(b), m) <==> Same(Octet(a, 3), Octet(b, 3), m)
  {
    FourthMoves(a, m);
    FourthMoves(b, m);
  }

  /** In the swapped word the bits stand in order. */
  lemma SwappedBit(a: bv32, b: bv32, i: bv32)
    requires i < 32
    ensures Same(Htonl(a), Htonl(b), Front4(i)) <==> FromFront(a, i) == FromFront(b, i)
  {
    var m := InOctet(i);
    FrontByOctet(i);
    if i >> 3 == 0 {
      First(a, b, m);
    } else if i >> 3 == 1 {
      Second(a, b, m);
    } else if i >> 3 == 2 {
      Third(a, b, m);
    } else {
      Fourth(a, b, m);
    }
  }

  lemma Absorb(a: bv32, m: bv32, h: bv32)
    ensures (a & (m | h)) & m == a & m
  {
  }

  lemma Distribute(a: bv32, m: bv32, h: bv32)
    ensures a & (m | h) == (a & m) | (a & h)
  {
  }

  lemma SamePart(x: bv32, y: bv32, m: bv32, h: bv32)
    requires Same(x, y, m | h)
    ensures Same(x, y, m)
  {
    Absorb(x, m, h);
    Absorb(y, m, h);
  }

  lemma SameUnion(x: bv32, y: bv32, m: bv32, h: bv32)
    requires Same(x, y, m) && Same(x, y, h)
    ensures Same(x, y, m | h)
  {
    Distribute(x, m, h);
    Distribute(y, m, h);
  }

  lemma OrCommutes(m: bv32, h: bv32)
    ensures m | h == h | m
  {
  }

  lemma MaskUnion(x: bv32, y: bv32, m: bv32, h: bv32, u: bv32)
    requires u == m | h
    ensures Same(x, y, u) <==> Same(x, y, m) && Same(x, y, h)
  {
    if Same(x, y, u) {
      SamePart(x, y, m, h);
      OrCommutes(m, h);
      SamePart(x, y, h, m);
    }
    if Same(x, y, m) && Same(x, y, h) {
      SameUnion(x, y, m, h);
    }
  }

  /** A mask one bit longer has one bit more. */
  lemma MaskGrows(p: bv32)
    requires p < 32
    ensures Mask4(p + 1) == Mask4(p) | Front4(p)
  {
  }

  lemma AgreeGrows(x: bv32, y: bv32, p: bv32)
    requires p < 32
    ensures AgreeHost(x, y, p + 1) <==> AgreeHost(x, y, p) && Same(x, y, Front4(p))
  {
  }

  lemma MaskStep(x: bv32, y: bv32, p: bv32)
    requires p < 32
    ensures Same(x, y, Mask4(p + 1)) <==> Same(x, y, Mask4(p)) && Same(x, y, Front4(p))
  {
    MaskGrows(p);
    MaskUnion(x, y, Mask4(p), Front4(p), Mask4(p + 1));
  }

  ghost predicate MaskTests(x: bv32, y: bv32, prefix: bv32)
    requires prefix <= 32
  {
    Same(x, y, Mask4(prefix)) <==> AgreeHost(x, y, prefix)
  }

  lemma MaskTestGrows(x: bv32, y: bv32, p: bv32)
    requires p < 32 && MaskTests(x, y, p)
    ensures MaskTests(x, y, p + 1)
  {
    MaskStep(x, y, p);
    AgreeGrows(x, y, p);
  }

  lemma {:induction false} HostMaskTest(x: bv32, y: bv32, prefix: bv32)
    requires prefix <= 32
    ensures MaskTests(x, y, prefix)
    decreases prefix
  {
    if prefix == 0 {
      NoBits(x, y);
    } else {
      HostMaskTest(x, y, prefix - 1);
      MaskTestGrows(x, y, prefix - 1);
    }
  }

  lemma NoBits(x: bv32, y: bv32)
    ensures Same(x, y, Mask4(0))
  {
  }

  lemma AllBits(x: bv32)
    ensures x & Mask4(32) == x
  {
  }

  lemma Involution(a: bv32)
    ensures Htonl(Htonl(a)) == a
  {
  }

  lemma SwappedMask(a: bv32, m: bv32)
    ensures a & Htonl(m) == Htonl(Htonl(a) & m)
  {
  }

  lemma SwapsAgree(a: bv32, b: bv32, m: bv32)
    ensures Same(a, b, Htonl(m)) <==> Same(Htonl(a), Htonl(b), m)
  {
    SwappedMask(a, m);
    SwappedMask(b, m);
    Involution(Htonl(a) & m);
    Involution(Htonl(b) & m);
  }

  lemma AllBitsSame(x: bv32, y: bv32)
    ensures Same(x, y, Mask4(32)) <==> x == y
  {
    AllBits(x);
    AllBits(y);
  }

  lemma HtonlInjective(a: bv32, b: bv32)
    ensures Htonl(a) == Htonl(b) <==> a == b
  {
    Involution(a);
    Involution(b);
  }
}
