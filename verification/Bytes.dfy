/** Little-endian byte strings and 64-bit words. */
module Bytes {
  import Arith

  type byte = x: int | 0 <= x < 256
  const TWO64: int := 0x1_0000_0000_0000_0000
  const TWO32: int := 0x1_0000_0000
  const U32_MAX: nat := 0xFFFF_FFFF
  const ISIZE_MAX: nat := 0x7FFF_FFFF_FFFF_FFFF
  type u32 = x: int | 0 <= x < TWO32
  type u64 = x: int | 0 <= x < TWO64

  function Pow256(w: nat): (r: nat)
    ensures r > 0
  {
    if w == 0 then 1 else 256 * Pow256(w - 1)
  }

  /** The low `w` bytes of `n`, least significant first (`to_le_bytes`). */
  function LE(n: nat, w: nat): (s: seq<byte>)
    ensures |s| == w
    decreases w
  {
    if w == 0 then [] else [n % 256] + LE(n / 256, w - 1)
  }

  /** `from_le_bytes`. */
  function FromLE(s: seq<byte>): (n: nat)
    ensures n < Pow256(|s|)
  {
    if s == [] then 0 else s[0] + 256 * FromLE(s[1..])
  }

  lemma {:induction false} FromLEofLE(n: nat, w: nat)
    requires n < Pow256(w)
    ensures FromLE(LE(n, w)) == n
    decreases w
  {
    if w > 0 {
      FromLEofLE(n / 256, w - 1);
      assert LE(n, w)[1..] == LE(n / 256, w - 1);
    }
  }

  lemma {:induction false} LEofFromLE(s: seq<byte>)
    ensures LE(FromLE(s), |s|) == s
  {
    if s != [] {
      LEofFromLE(s[1..]);
      assert FromLE(s) % 256 == s[0] && FromLE(s) / 256 == FromLE(s[1..]);
    }
  }

  /** Byte `i` of a little-endian string is the digit of weight 256^i. */
  lemma {:induction false} LEAt(n: nat, w: nat, i: nat)
    requires i < w
    ensures LE(n, w)[i] == n / Pow256(i) % 256
    decreases w
  {
    if i > 0 {
      LEAt(n / 256, w - 1, i - 1);
      DivTwice(n, 256, Pow256(i - 1));
    }
  }

  lemma DivTwice(n: nat, a: nat, b: nat)
    requires a > 0 && b > 0
    ensures n / a / b == n / (a * b)
  {
    var (x, r) := (n / a, n % a);
    var (q, t) := (x / b, x % b);
    Nested(n, a, b, x, r, q, t);
    Arith.DivMod(n, q, t * a + r, a * b);
  }

  lemma Nested(n: nat, a: nat, b: nat, x: nat, r: nat, q: nat, t: nat)
    requires n == x * a + r && r < a && x == q * b + t && t < b
    ensures n == q * (a * b) + (t * a + r) && t * a + r < a * b
  {
    assert x * a == q * b * a + t * a;
    assert q * b * a == q * (a * b);
    Arith.MulAtLeast(b - t, a);
    assert (b - t) * a == b * a - t * a;
  }

  lemma Widths()
    ensures Pow256(1) == 0x100 && Pow256(2) == 0x1_0000 && Pow256(4) == 0x1_0000_0000
    ensures Pow256(8) == 0x1_0000_0000_0000_0000
  {
    assert Pow256(3) == 256 * Pow256(2);
    assert Pow256(5) == 256 * Pow256(4) && Pow256(6) == 256 * Pow256(5);
    assert Pow256(7) == 256 * Pow256(6) && Pow256(8) == 256 * Pow256(7);
  }

  // ---- 64-bit words as integers, bit by bit ------------------------------------

  function Pow2(k: nat): (r: nat)
    ensures r > 0
  {
    if k == 0 then 1 else 2 * Pow2(k - 1)
  }

  /** Exclusive or of the low `k` bits. */
  function Xor(a: nat, b: nat, k: nat): (r: nat)
    ensures r < Pow2(k)
  {
    if k == 0 then 0 else (a + b) % 2 + 2 * Xor(a / 2, b / 2, k - 1)
  }

  lemma Pow2of64()
    ensures Pow2(64) == TWO64
  {
    assert Pow2(8) == 0x100;
    assert Pow2(16) == 0x1_0000;
    assert Pow2(24) == 0x100_0000;
    assert Pow2(32) == 0x1_0000_0000;
    assert Pow2(40) == 0x100_0000_0000;
    assert Pow2(48) == 0x1_0000_0000_0000;
    assert Pow2(56) == 0x100_0000_0000_0000;
  }

  function Xor64(a: u64, b: u64): u64 {
    Pow2of64();
    Xor(a, b, 64)
  }

  /** `x >> k`. */
  function Shr(x: u64, k: nat): u64
    decreases k
  {
    if k == 0 then x else Shr(x / 2, k - 1)
  }

  /** `x.rotate_left(k)`: the two shifted parts occupy disjoint bits. */
  function RotL(x: u64, k: nat): u64
    requires 0 < k < 64
  {
    (x * Pow2(k) + Shr(x, 64 - k)) % TWO64
  }

  /** `wrapping_mul`. */
  function Times(a: u64, b: u64): u64 {
    (a * b) % TWO64
  }
}
