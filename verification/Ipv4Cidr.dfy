/**
 * IPv4 blocks as the routing policy computes with them: 32-bit masks, the
 * canonical-address check and the private-range check
 * (mobile/src/network-routing.ts:139-193). Numbers stand for JavaScript's
 * unsigned 32-bit values, and `&` and `<<` are defined bit by bit.
 */
module Ipv4Cidr {
  import opened Common

  const WORD := 0x1_0000_0000
  const ALL_ONES := 0xffff_ffff

  function Pow2(k: nat): (p: nat)
    ensures p >= 1
  {
    if k == 0 then 1 else 2 * Pow2(k - 1)
  }

  function BitAnd(x: nat, y: nat): nat
    decreases x
  {
    if x == 0 || y == 0 then 0 else (x % 2) * (y % 2) + 2 * BitAnd(x / 2, y / 2)
  }

  /** `x << count` keeps 32 bits and takes the count modulo 32. */
  function ShiftLeft(x: nat, count: nat): nat {
    x * Pow2(count % 32) % WORD
  }

  function Mask(prefix: nat): nat
    requires prefix <= 32
  {
    if prefix == 32 then ALL_ONES else ShiftLeft(ALL_ONES, 32 - prefix)
  }

  /** A block as a policy writes it. */
  datatype Cidr = Cidr(network: nat, prefix: nat)

  predicate Canonical(c: Cidr) {
    c.network < WORD && 1 <= c.prefix <= 32 && BitAnd(c.network, Mask(c.prefix)) == c.network
  }

  /** How the source tests membership. */
  predicate InBlock(address: nat, c: Cidr)
    requires c.prefix <= 32
  {
    BitAnd(address, Mask(c.prefix)) == c.network
  }

  function Size(c: Cidr): nat
    requires c.prefix <= 32
  {
    Pow2(32 - c.prefix)
  }

  // ------------------------------------------------- masks cut off low bits

  lemma {:induction false} SmallMultiple(x: int, d: int)
    requires d > 0 && -d < x * d && x * d < d
    ensures x == 0
  {
    if x >= 1 {
      assert false by { ScaleUp(x, d); }
    } else if x <= -1 {
      assert false by { ScaleUp(-x, d); }
    }
  }

  lemma ScaleUp(x: int, d: int)
    requires x >= 1 && d > 0
    ensures x * d >= d
  {}

  lemma {:induction false} RemainderIs(a: nat, quotient: nat, d: nat, r: nat)
    requires a == quotient * d + r && r < d
    ensures a % d == r
  {
    var q := a / d;
    assert a == q * d + a % d;
    assert (q - quotient) * d == q * d - quotient * d;
    SmallMultiple(q - quotient, d);
  }

  lemma {:induction false} HalfRemainder(a: nat, d: nat)
    requires d >= 1
    ensures a % (2 * d) == 2 * (a / 2 % d) + a % 2
  {
    var h := a / 2;
    var q, r := h / d, h % d;
    assert h == q * d + r;
    assert a == 2 * h + a % 2;
    assert 2 * (q * d) == q * (2 * d);
    RemainderIs(a, q, 2 * d, 2 * r + a % 2);
  }

  lemma {:induction false} Pow2Monotone(k: nat, m: nat)
    requires k <= m
    ensures Pow2(k) <= Pow2(m)
    decreases m
  {
    if k < m {
      Pow2Monotone(k, m - 1);
    }
  }

  /** With `m` bits of which the lowest `k` are off, `&` clears the lowest `k` bits. */
  lemma {:induction false} HighBits(a: nat, m: nat, k: nat)
    requires k <= m && a < Pow2(m)
    ensures Pow2(m) >= Pow2(k) && BitAnd(a, Pow2(m) - Pow2(k)) == a - a % Pow2(k)
    decreases m
  {
    hide BitAnd;
    Pow2Monotone(k, m);
    if m == 0 {
      NoBits(a, 0);
    } else if k == 0 {
      HighBits(a / 2, m - 1, 0);
      OddMask(a, Pow2(m - 1) - 1);
    } else {
      HighBits(a / 2, m - 1, k - 1);
      HalfRemainder(a, Pow2(k - 1));
      EvenMask(a, Pow2(m - 1) - Pow2(k - 1));
    }
  }

  lemma {:induction false} NoBits(a: nat, y: nat)
    requires a == 0 || y == 0
    ensures BitAnd(a, y) == 0
  {}

  lemma {:induction false} OddMask(a: nat, half: nat)
    ensures BitAnd(a, 2 * half + 1) == a % 2 + 2 * BitAnd(a / 2, half)
  {}

  lemma {:induction false} EvenMask(a: nat, half: nat)
    ensures BitAnd(a, 2 * half) == 2 * BitAnd(a / 2, half)
  {}

  lemma {:induction false} MaskValue(prefix: nat)
    requires 1 <= prefix <= 32
    ensures Pow2(32) == WORD && Pow2(32 - prefix) <= WORD / 2 && Mask(prefix) == WORD - Pow2(32 - prefix)
  {
    Pow2Monotone(32 - prefix, 31);
    Powers();
    var p := Pow2(32 - prefix);
    if prefix < 32 {
      hide Pow2;
      RemainderIs(ALL_ONES * p, p - 1, WORD, WORD - p);
    } else {
      assert p == 1;
    }
  }

  lemma {:induction false} Powers()
    ensures Pow2(8) == 0x100 && Pow2(16) == 0x1_0000 && Pow2(31) == 0x8000_0000 && Pow2(32) == WORD
  {
    assert Pow2(8) == 0x100;
    Pow2Sum(8, 8);
    Pow2Sum(16, 8);
    Pow2Sum(24, 7);
    assert Pow2(7) == 0x80;
  }

  lemma {:induction false} Pow2Sum(i: nat, j: nat)
    ensures Pow2(i + j) == Pow2(i) * Pow2(j)
    decreases j
  {
    if j != 0 {
      Pow2Sum(i, j - 1);
      assert Pow2(i) * (2 * Pow2(j - 1)) == 2 * (Pow2(i) * Pow2(j - 1));
    }
  }

  lemma {:induction false} CanonicalIsMultiple(network: nat, prefix: nat)
    requires network < WORD && 1 <= prefix <= 32
    ensures Canonical(Cidr(network, prefix)) <==> network % Pow2(32 - prefix) == 0
  {
    MaskValue(prefix);
    HighBits(network, 32, 32 - prefix);
  }

  /** The mask test is the address range of the canonical block, section 3.1 of RFC 4632. */
  lemma {:induction false} BlockIsRange(address: nat, c: Cidr)
    requires address < WORD && Canonical(c)
    ensures InBlock(address, c) <==> c.network <= address < c.network + Size(c)
  {
    hide Pow2, BitAnd, Mask;
    var p := Pow2(32 - c.prefix);
    MaskValue(c.prefix);
    HighBits(address, 32, 32 - c.prefix);
    CanonicalIsMultiple(c.network, c.prefix);
    if c.network <= address < c.network + p {
      assert c.network == c.network / p * p;
      RemainderIs(address, c.network / p, p, address - c.network);
    }
  }

  /** A block that is not canonical matches nothing at all. */
  lemma {:induction false} NonCanonicalMatchesNothing(address: nat, c: Cidr)
    requires address < WORD && c.network < WORD && 1 <= c.prefix <= 32 && !Canonical(c)
    ensures !InBlock(address, c)
  {
    hide Pow2, BitAnd, Mask;
    var p := Pow2(32 - c.prefix);
    MaskValue(c.prefix);
    HighBits(address, 32, 32 - c.prefix);
    CanonicalIsMultiple(c.network, c.prefix);
    assert address == address / p * p + address % p;
    if address - address % p == c.network {
      RemainderIs(c.network, address / p, p, 0);
    }
  }

  // ------------------------------------------------------- private blocks

  predicate Private(address: nat) {
    || 0x0A00_0000 <= address <= 0x0AFF_FFFF
    || 0xAC10_0000 <= address <= 0xAC1F_FFFF
    || 0xC0A8_0000 <= address <= 0xC0A8_FFFF
  }

  datatype CidrError = InvalidCidr | NotCanonical | NotPrivate

  /** The parsed address and prefix of a LAN block; text is not modelled. */
  function NormalizePrivate(network: nat, prefix: nat): (r: Result<Cidr, CidrError>)
    requires network < WORD
  {
    if prefix < 1 || prefix > 32 then Err(InvalidCidr)
    else if BitAnd(network, Mask(prefix)) != network then Err(NotCanonical)
    else if !Private(network) then Err(NotPrivate)
    else Ok(Cidr(network, prefix))
  }

  /** A block is accepted exactly when its base is a multiple of its size inside 10/8, 172.16/12 or 192.168/16. */
  lemma {:induction false} AcceptedIff(network: nat, prefix: nat)
    requires network < WORD
    ensures NormalizePrivate(network, prefix).Ok?
       <==> 1 <= prefix <= 32 && network % Pow2(32 - prefix) == 0
            && (network / 0x100_0000 == 10 || network / 0x10_0000 == 172 * 16 + 1
                || network / 0x1_0000 == 192 * 256 + 168)
    ensures NormalizePrivate(network, prefix).Ok? ==> NormalizePrivate(network, prefix).value == Cidr(network, prefix)
  {
    hide Pow2, BitAnd, Mask;
    if 1 <= prefix <= 32 {
      CanonicalIsMultiple(network, prefix);
    }
  }

  predicate WhollyPrivate(c: Cidr)
    requires c.prefix <= 32
  {
    forall address: nat :: c.network <= address < c.network + Size(c) ==> Private(address)
  }

  /** The prefix is not shorter than that of the private block the base address lies in. */
  predicate LongEnough(c: Cidr) {
    if c.network <= 0x0AFF_FFFF then c.prefix >= 8
    else if c.network <= 0xAC1F_FFFF then c.prefix >= 12
    else c.prefix >= 16
  }

  lemma {:induction false} SizeBound(c: Cidr, k: nat)
    requires c.prefix <= 32 && k <= 32
    ensures c.prefix >= k ==> Size(c) <= Pow2(32 - k)
    ensures c.prefix < k ==> Size(c) >= 2 * Pow2(32 - k)
  {
    if c.prefix >= k {
      Pow2Monotone(32 - c.prefix, 32 - k);
    } else {
      Pow2Monotone(32 - k + 1, 32 - c.prefix);
    }
  }

  /** Multiples of `d` are at least `d` apart. */
  lemma {:induction false} NextMultiple(x: nat, y: nat, d: nat)
    requires d >= 1 && x % d == 0 && y % d == 0 && x < y
    ensures x + d <= y
  {
    assert x == x / d * d && y == y / d * d;
    assert x / d < y / d;
    assert (x / d + 1) * d <= y / d * d;
  }

  lemma {:induction false} PowerDivides(i: nat, j: nat, multiple: nat)
    requires i <= j
    ensures multiple * Pow2(j) % Pow2(i) == 0
  {
    hide Pow2;
    Pow2Sum(i, j - i);
    Regroup(multiple, Pow2(i), Pow2(j - i));
    RemainderIs(multiple * Pow2(j), multiple * Pow2(j - i), Pow2(i), 0);
  }

  lemma {:induction false} Regroup(x: nat, y: nat, z: nat)
    ensures x * (y * z) == (x * z) * y
  {
    assert x * (y * z) == x * (z * y) == (x * z) * y;
  }

  /** The block does not cross the end of the private block that starts it. */
  lemma {:induction false} StaysBelow(c: Cidr, k: nat, multiple: nat)
    requires Canonical(c) && k <= c.prefix && k <= 32 && c.network < multiple * Pow2(32 - k)
    ensures c.network + Size(c) <= multiple * Pow2(32 - k)
  {
    CanonicalIsMultiple(c.network, c.prefix);
    PowerDivides(32 - c.prefix, 32 - k, multiple);
    NextMultiple(c.network, multiple * Pow2(32 - k), Size(c));
  }

  /**
   * Only the base address of an accepted block is checked. The whole block is private exactly when its
   * prefix is long enough; 10.0.0.0/7 and 192.168.0.0/13 to /15 are accepted and are not.
   */
  lemma {:induction false} WhollyPrivateIff(network: nat, prefix: nat)
    requires network < WORD && NormalizePrivate(network, prefix).Ok?
    ensures WhollyPrivate(Cidr(network, prefix)) <==> LongEnough(Cidr(network, prefix))
  {
    hide Pow2, BitAnd, Mask;
    var c := Cidr(network, prefix);
    var (k, start, units) := if network <= 0x0AFF_FFFF then (8, 0x0A00_0000, 0x0A)
                             else if network <= 0xAC1F_FFFF then (12, 0xAC10_0000, 0xAC1)
                               else (16, 0xC0A8_0000, 0xC0A8);
    SmallPowers();
    assert start == units * Pow2(32 - k);
    assert start <= network < start + Pow2(32 - k);
    SizeBound(c, k);
    if prefix >= k {
      StaysBelow(c, k, units + 1);
    } else {
      assert c.network <= start + Pow2(32 - k) < c.network + Size(c);
      assert !Private(start + Pow2(32 - k));
    }
  }

  lemma {:induction false} SmallPowers()
    ensures Pow2(24) == 0x100_0000 && Pow2(20) == 0x10_0000 && Pow2(16) == 0x1_0000
  {
    Powers();
    Pow2Sum(16, 8);
    Pow2Sum(16, 4);
    assert Pow2(4) == 16;
  }

  lemma {:induction false} TinyPowers()
    ensures Pow2(1) == 2 && Pow2(3) == 8
  {
    assert Pow2(2) == 4;
  }

  lemma {:induction false} TooWideBlocksAreAccepted()
    ensures NormalizePrivate(0x0A00_0000, 7) == Ok(Cidr(0x0A00_0000, 7)) && !LongEnough(Cidr(0x0A00_0000, 7))
    ensures NormalizePrivate(0xC0A8_0000, 13) == Ok(Cidr(0xC0A8_0000, 13)) && !LongEnough(Cidr(0xC0A8_0000, 13))
  {
    hide Pow2, BitAnd, Mask;
    SmallPowers();
    Pow2Sum(24, 1);
    Pow2Sum(16, 3);
    TinyPowers();
    CanonicalIsMultiple(0x0A00_0000, 7);
    CanonicalIsMultiple(0xC0A8_0000, 13);
  }
}
