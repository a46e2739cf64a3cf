/** Java's fixed-width integer semantics, as far as the coverage code uses them. */
module JavaTypes {

  /** A Java `byte`: signed, 8 bits. */
  newtype JByte = x: int | -128 <= x < 128

  /** A Java `int`: signed, 32 bits, two's complement. */
  newtype Int32 = x: int | -0x8000_0000 <= x < 0x8000_0000

  /** A Java `long`: signed, 64 bits. */
  newtype Int64 = x: int | -0x8000_0000_0000_0000 <= x < 0x8000_0000_0000_0000

  /** Size of the shared coverage map: `1 << MAP_SIZE_POW2` with MAP_SIZE_POW2 = 16. */
  const MapSize: int := 0x1_0000

  /** The `(byte)` cast (JVM instruction I2B): keep the low 8 bits, sign-extend. */
  function I2B(x: int): (r: JByte)
    ensures (r as int - x) % 256 == 0
    ensures -128 <= x < 128 ==> r as int == x
  {
    ((x + 128) % 256 - 128) as JByte
  }

  /** Java `int` addition overflow: keep the low 32 bits. */
  function Wrap32(x: int): (r: Int32)
    ensures (r as int - x) % 0x1_0000_0000 == 0
    ensures -0x8000_0000 <= x < 0x8000_0000 ==> r as int == x
  {
    ((x + 0x8000_0000) % 0x1_0000_0000 - 0x8000_0000) as Int32
  }

  /** `2^k`. */
  function Pow2(k: nat): (r: nat)
    ensures r >= 1
  {
    if k == 0 then 1 else 2 * Pow2(k - 1)
  }

  /** Bitwise exclusive or of two non-negative integers, bit by bit from the lowest. */
  function XorNat(a: nat, b: nat): nat
  {
    if a == 0 then b
    else if b == 0 then a
    else 2 * XorNat(a / 2, b / 2) + (a % 2 + b % 2) % 2
  }

  /** The unsigned reading of an `int`'s 32-bit two's complement pattern. */
  function Unsigned(x: Int32): (r: nat)
    ensures r < 0x1_0000_0000
    ensures 0 <= x ==> r == x as int
  {
    if x < 0 then x as int + 0x1_0000_0000 else x as int
  }

  /** The `int` whose 32-bit two's complement pattern reads as `u`. */
  function Signed(u: nat): (r: Int32)
    requires u < 0x1_0000_0000
    ensures u < 0x8000_0000 ==> r as int == u
  {
    if u < 0x8000_0000 then u as Int32 else (u - 0x1_0000_0000) as Int32
  }

  /** No bit above `2^k` appears in the XOR of two numbers below `2^k`. */
  lemma {:induction false} XorBelow(a: nat, b: nat, k: nat)
    requires a < Pow2(k) && b < Pow2(k)
    ensures XorNat(a, b) < Pow2(k)
  {
    if a != 0 && b != 0 {
      assert k > 0;
      XorBelow(a / 2, b / 2, k - 1);
    }
  }

  /** Java `a ^ b` on `int` (JVM instruction IXOR). */
  function Xor(a: Int32, b: Int32): Int32
  {
    assert Pow2(32) == 0x1_0000_0000 by { Pow2Values(); }
    XorBelow(Unsigned(a), Unsigned(b), 32);
    Signed(XorNat(Unsigned(a), Unsigned(b)))
  }

  lemma Pow2Values()
    ensures Pow2(16) == 0x1_0000 && Pow2(32) == 0x1_0000_0000
  {
    assert Pow2(8) == 256;
    assert Pow2(16) == 256 * 256 by { Pow2Add(8, 8); }
    assert Pow2(32) == Pow2(16) * Pow2(16) by { Pow2Add(16, 16); }
  }

  lemma {:induction false} Pow2Add(j: nat, k: nat)
    ensures Pow2(j + k) == Pow2(j) * Pow2(k)
  {
    if k > 0 {
      Pow2Add(j, k - 1);
    }
  }

  /** Java `x >> 1` on `int`: arithmetic shift, i.e. division rounding toward minus infinity. */
  function Shr1(x: Int32): (r: Int32)
    ensures x as int == 2 * r as int || x as int == 2 * r as int + 1
  {
    (x as int / 2) as Int32
  }

  /** A tuple index `location_id ^ prev_location` of two values inside the map stays inside
      the map: the map size is a power of two, so XOR cannot set a bit above it. */
  lemma XorStaysInMap(a: Int32, b: Int32)
    requires 0 <= a as int < MapSize && 0 <= b as int < MapSize
    ensures 0 <= Xor(a, b) as int < MapSize
  {
    Pow2Values();
    XorBelow(a as int, b as int, 16);
  }

  /** XOR with zero is the identity on non-negative values: the first recorded edge of a
      run (with `prev_location` still 0) lands on the location itself. */
  lemma XorZero(a: Int32)
    requires 0 <= a
    ensures Xor(a, 0) == a
  {
  }
}
