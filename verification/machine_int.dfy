/** Go's fixed-width integers, on top of unbounded ones. */
module MachineInt {
  const TWO_63 := 0x8000_0000_0000_0000
  const TWO_64 := 0x1_0000_0000_0000_0000

  type int32 = x: int | -0x8000_0000 <= x < 0x8000_0000
  type int64 = x: int | -0x8000_0000_0000_0000 <= x < 0x8000_0000_0000_0000
  type uint64 = x: int | 0 <= x < 0x1_0000_0000_0000_0000

  const MAX_INT64: int64 := 0x7FFF_FFFF_FFFF_FFFF

  lemma Multiple(k: int)
    ensures (k * TWO_64) % TWO_64 == 0
  {
  }

  /** Two's-complement reduction: what an int64 operation leaves of an exact result. */
  function Wrap(x: int): (r: int64)
    ensures -TWO_63 <= x < TWO_63 ==> r == x
    ensures (x - r) % TWO_64 == 0
  {
    var m := x % TWO_64;
    Multiple(x / TWO_64);
    Multiple(x / TWO_64 + 1);
    if m < TWO_63 then m else m - TWO_64
  }

  /** Go's `uint64(x)` and `int64(u)` conversions. */
  function ToUnsigned(x: int64): uint64 {
    if x < 0 then x + TWO_64 else x
  }

  function ToSigned(u: uint64): int64 {
    if u < TWO_63 then u else u - TWO_64
  }

  lemma SignedUnsigned(x: int64, u: uint64)
    ensures ToSigned(ToUnsigned(x)) == x && ToUnsigned(ToSigned(u)) == u
  {
  }

  lemma SignBit(x: int)
    requires TWO_63 <= x < TWO_64
    ensures Wrap(x) == x - TWO_64 && ToUnsigned(Wrap(x)) == x
  {
  }

  /** Go's integer division truncates towards zero. */
  function TruncDiv(a: int, b: int): int
    requires b > 0
  {
    if a >= 0 then a / b else -((-a) / b)
  }

  function Pow2(k: nat): (p: nat)
    ensures p > 0
  {
    if k == 0 then 1 else 2 * Pow2(k - 1)
  }

  /** Bitwise or of two non-negative integers. */
  function BitOr(a: nat, b: nat): nat {
    if a == 0 && b == 0 then 0
    else 2 * BitOr(a / 2, b / 2) + (if a % 2 == 1 || b % 2 == 1 then 1 else 0)
  }

  /** Or-ing a value below 2^k under a value shifted left by k just adds the two. */
  lemma {:induction false} BitOrDisjoint(a: nat, b: nat, k: nat)
    requires b < Pow2(k)
    ensures BitOr(a * Pow2(k), b) == a * Pow2(k) + b
  {
    if k == 0 {
      BitOrZero(a);
    } else {
      assert a * Pow2(k) == 2 * (a * Pow2(k - 1));
      BitOrDisjoint(a, b / 2, k - 1);
    }
  }

  lemma {:induction false} BitOrZero(a: nat)
    ensures BitOr(a, 0) == a
  {
    if a > 0 {
      BitOrZero(a / 2);
    }
  }
}
