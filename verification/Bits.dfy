/** Machine words bit by bit: what shifting, rotating and exclusive or do to each bit, and which mixings can be undone. */
module Bits {
  import opened Arith
  import opened Bytes

  function Bit(x: nat, i: nat): (b: nat)
    ensures b < 2
  {
    if i == 0 then x % 2 else Bit(x / 2, i - 1)
  }

  /** A word is its bits. */
  lemma {:induction false} BitsDetermine(x: nat, y: nat, k: nat)
    requires x < Pow2(k) && y < Pow2(k) && forall i :: 0 <= i < k ==> Bit(x, i) == Bit(y, i)
    ensures x == y
    decreases k
  {
    if k > 0 {
      forall i | 0 <= i < k - 1 ensures Bit(x / 2, i) == Bit(y / 2, i) {
        assert Bit(x, i + 1) == Bit(y, i + 1);
      }
      BitsDetermine(x / 2, y / 2, k - 1);
      assert Bit(x, 0) == Bit(y, 0);
    }
  }

  lemma {:induction false} HighBits(x: nat, k: nat, i: nat)
    requires x < Pow2(k) && i >= k
    ensures Bit(x, i) == 0
    decreases k
  {
    if k == 0 { ZeroBits(i); } else { HighBits(x / 2, k - 1, i - 1); }
  }

  lemma {:induction false} ZeroBits(i: nat)
    ensures Bit(0, i) == 0
  {
    if i > 0 { ZeroBits(i - 1); }
  }

  lemma {:induction false} BitXor(a: nat, b: nat, k: nat, i: nat)
    requires i < k
    ensures Bit(Xor(a, b, k), i) == (Bit(a, i) + Bit(b, i)) % 2
    decreases k
  {
    if i > 0 {
      BitXor(a / 2, b / 2, k - 1, i - 1);
      assert Xor(a, b, k) / 2 == Xor(a / 2, b / 2, k - 1);
    }
  }

  lemma {:induction false} BitShr(x: u64, k: nat, i: nat)
    ensures Bit(Shr(x, k), i) == Bit(x, i + k)
    decreases k
  {
    if k > 0 { BitShr(x / 2, k - 1, i); }
  }

  /** Putting `x` above `k` lower bits. */
  lemma {:induction false} BitAbove(x: nat, r: nat, k: nat, i: nat)
    requires r < Pow2(k)
    ensures Bit(x * Pow2(k) + r, i) == if i < k then Bit(r, i) else Bit(x, i - k)
    decreases k
  {
    if k > 0 {
      var z := x * Pow2(k) + r;
      assert x * Pow2(k) == 2 * (x * Pow2(k - 1));
      assert z / 2 == x * Pow2(k - 1) + r / 2 && z % 2 == r % 2;
      if i > 0 { BitAbove(x, r / 2, k - 1, i - 1); }
    }
  }

  /** Reducing modulo 2^k keeps the low k bits. */
  lemma BitReduced(z: nat, k: nat, i: nat)
    requires i < k
    ensures Bit(z % Pow2(k), i) == Bit(z, i)
  {
    hide Bit, Pow2;
    var m := Pow2(k);
    var q, r := z / m, z % m;
    assert z == q * m + r;
    BitAbove(q, r, k, i);
  }

  lemma {:induction false} ShrBound(x: u64, k: nat, m: nat)
    requires k <= m && x < Pow2(m)
    ensures Shr(x, k) < Pow2(m - k)
    decreases k
  {
    if k > 0 { ShrBound(x / 2, k - 1, m - 1); }
  }

  /** Rotation moves bit i - k (cyclically) to place i. */
  lemma BitRotL(x: u64, k: nat, i: nat)
    requires 0 < k < 64 && i < 64
    ensures Bit(RotL(x, k), i) == if i < k then Bit(x, i + 64 - k) else Bit(x, i - k)
  {
    Pow2of64();
    ShrBound(x, 64 - k, 64);
    BitReduced(x * Pow2(k) + Shr(x, 64 - k), 64, i);
    BitAbove(x, Shr(x, 64 - k), k, i);
    if i < k { BitShr(x, 64 - k, i); }
  }

  /** A shift is a division. */
  lemma {:induction false} ShrIsDivision(x: u64, k: nat)
    ensures Shr(x, k) == x / Pow2(k)
    decreases k
  {
    if k > 0 {
      ShrIsDivision(x / 2, k - 1);
      var m := Pow2(k - 1);
      var d, r := x / 2 / m, x / 2 % m;
      assert x / 2 == d * m + r;
      assert d * (2 * m) == 2 * (d * m);
      DivMod(x, d, 2 * r + x % 2, 2 * m);
    }
  }

  /** Exclusive or of numbers split at bit `j`. */
  lemma {:induction false} XorSplit(x: nat, r: nat, y: nat, u: nat, k: nat, j: nat, m: nat)
    requires m == Pow2(j) && r < m && u < m
    ensures Xor(x * m + r, y * m + u, k + j) == m * Xor(x, y, k) + Xor(r, u, j)
    decreases j
  {
    hide Pow2, Xor;
    PowNext(j);
    if j == 0 {
      NoBits(r, u);
    } else {
      var h := Pow2(j - 1);
      Halved(x, h, r);
      Halved(y, h, u);
      XorSplit(x, r / 2, y, u / 2, k, j - 1, h);
      XorOnce(x * m + r, y * m + u, k + j);
      XorOnce(r, u, j);
      assert 2 * (h * Xor(x, y, k)) == m * Xor(x, y, k);
    }
  }

  lemma Halved(x: nat, h: nat, r: nat)
    ensures x * (2 * h) + r >= 0 && (x * (2 * h) + r) / 2 == x * h + r / 2 && (x * (2 * h) + r) % 2 == r % 2
  {
    assert x * (2 * h) == 2 * (x * h);
  }

  lemma PowNext(j: nat)
    ensures Pow2(0) == 1 && (j > 0 ==> Pow2(j) == 2 * Pow2(j - 1))
  {
  }

  lemma NoBits(a: nat, b: nat)
    ensures Xor(a, b, 0) == 0 && Pow2(0) == 1
  {
  }

  lemma XorOnce(a: nat, b: nat, k: nat)
    requires k > 0
    ensures Xor(a, b, k) == (a % 2 + b % 2) % 2 + 2 * Xor(a / 2, b / 2, k - 1)
  {
  }

  // ---- evaluating from the top bit down, by comparisons only ------------------------------------

  function Peel(x: nat, w: nat): nat { if x >= w then x - w else x }

  function Odd(x: nat, y: nat, w: nat): nat { if (x >= w) != (y >= w) then w else 0 }

  /** Exclusive or of two 8-bit numbers. */
  function TopXor(x: nat, y: nat): nat {
    var (a, b) := (Peel(x, 128), Peel(y, 128));
    var (c, d) := (Peel(a, 64), Peel(b, 64));
    var (e, f) := (Peel(c, 32), Peel(d, 32));
    var (g, h) := (Peel(e, 16), Peel(f, 16));
    var (i, j) := (Peel(g, 8), Peel(h, 8));
    var (k, l) := (Peel(i, 4), Peel(j, 4));
    Odd(x, y, 128) + Odd(a, b, 64) + Odd(c, d, 32) + Odd(e, f, 16) + Odd(g, h, 8) + Odd(i, j, 4) + Odd(k, l, 2) + Odd(Peel(k, 2), Peel(l, 2), 1)
  }

  lemma {:induction false} XorTop(a: nat, b: nat, k: nat, p: nat)
    requires p == Pow2(k) && a < 2 * p && b < 2 * p
    ensures Xor(a, b, k + 1) == Odd(a, b, p) + Xor(Peel(a, p), Peel(b, p), k)
    ensures Peel(a, p) < p && Peel(b, p) < p
    decreases k
  {
    hide Xor, Pow2;
    PowNext(k);
    XorOnce(a, b, k + 1);
    if k == 0 {
      NoBits(a / 2, b / 2);
      NoBits(Peel(a, p), Peel(b, p));
    } else {
      var h := Pow2(k - 1);
      XorTop(a / 2, b / 2, k - 1, h);
      XorOnce(Peel(a, p), Peel(b, p), k);
      PeelHalf(a, h);
      PeelHalf(b, h);
      hide Peel;
    }
  }

  lemma PeelHalf(a: nat, h: nat)
    ensures Peel(a, 2 * h) / 2 == Peel(a / 2, h) && Peel(a, 2 * h) % 2 == a % 2 && (a >= 2 * h <==> a / 2 >= h)
  {
  }

  lemma TopXorIsXor(x: nat, y: nat)
    requires x < 256 && y < 256
    ensures Xor(x, y, 8) == TopXor(x, y)
  {
    assert Pow2(0) == 1 && Pow2(1) == 2 && Pow2(2) == 4 && Pow2(3) == 8 && Pow2(4) == 16 && Pow2(5) == 32 && Pow2(6) == 64 && Pow2(7) == 128;
    hide Xor, Pow2, Peel, Odd;
    XorTop(x, y, 7, 128);
    var (a, b) := (Peel(x, 128), Peel(y, 128));
    XorTop(a, b, 6, 64);
    var (c, d) := (Peel(a, 64), Peel(b, 64));
    XorTop(c, d, 5, 32);
    var (e, f) := (Peel(c, 32), Peel(d, 32));
    XorTop(e, f, 4, 16);
    var (g, h) := (Peel(e, 16), Peel(f, 16));
    XorTop(g, h, 3, 8);
    var (i, j) := (Peel(g, 8), Peel(h, 8));
    XorTop(i, j, 2, 4);
    var (k, l) := (Peel(i, 4), Peel(j, 4));
    XorTop(k, l, 1, 2);
    XorTop(Peel(k, 2), Peel(l, 2), 0, 1);
    NoBits(Peel(Peel(k, 2), 1), Peel(Peel(l, 2), 1));
  }

  /** The top byte of an exclusive or, and the rest. */
  lemma XorTopByte(k: nat, p: nat, x: nat, y: nat, r: nat, u: nat)
    requires p == Pow2(k) && r < p && u < p && x < 256 && y < 256
    ensures Xor(x * p + r, y * p + u, 8 + k) == TopXor(x, y) * p + Xor(r, u, k)
  {
    hide Xor, Pow2, TopXor;
    XorSplit(x, r, y, u, 8, k, p);
    TopXorIsXor(x, y);
  }

  lemma BitXor64(a: u64, b: u64, i: nat)
    requires i < 64
    ensures Bit(Xor64(a, b), i) == (Bit(a, i) + Bit(b, i)) % 2
  {
    BitXor(a, b, 64, i);
  }

  // ---- what can be undone -----------------------------------------------------------------

  /** Exclusive or with a fixed word loses nothing. */
  lemma XorInjective(a: u64, x: u64, y: u64)
    ensures Xor64(a, x) == Xor64(a, y) <==> x == y
    ensures Xor64(x, a) == Xor64(y, a) <==> x == y
  {
    Pow2of64();
    if Xor64(a, x) == Xor64(a, y) || Xor64(x, a) == Xor64(y, a) {
      forall i | 0 <= i < 64 ensures Bit(x, i) == Bit(y, i) {
        BitXor64(a, x, i);
        BitXor64(a, y, i);
        BitXor64(x, a, i);
        BitXor64(y, a, i);
      }
      BitsDetermine(x, y, 64);
    }
  }

  lemma RotLInjective(x: u64, y: u64, k: nat)
    requires 0 < k < 64
    ensures RotL(x, k) == RotL(y, k) <==> x == y
  {
    Pow2of64();
    if RotL(x, k) == RotL(y, k) {
      forall i | 0 <= i < 64 ensures Bit(x, i) == Bit(y, i) {
        var j := if i + k < 64 then i + k else i + k - 64;
        BitRotL(x, k, j);
        BitRotL(y, k, j);
      }
      BitsDetermine(x, y, 64);
    }
  }

  /** `word ^ (word >> k)`, the mixing step. */
  function Folded(x: u64, k: nat): u64 { Xor64(x, Shr(x, k)) }

  lemma BitFolded(x: u64, k: nat, i: nat)
    requires i < 64
    ensures Bit(Folded(x, k), i) == (Bit(x, i) + Bit(x, i + k)) % 2
  {
    BitXor64(x, Shr(x, k), i);
    BitShr(x, k, i);
  }

  /** From the top bit down, each bit of the word can be read off its folding. */
  lemma {:induction false} UnfoldBit(x: u64, y: u64, k: nat, i: nat)
    requires k > 0 && Folded(x, k) == Folded(y, k)
    ensures Bit(x, i) == Bit(y, i)
    decreases 64 - i
  {
    if i >= 64 {
      Pow2of64();
      HighBits(x, 64, i);
      HighBits(y, 64, i);
    } else {
      UnfoldBit(x, y, k, i + k);
      BitFolded(x, k, i);
      BitFolded(y, k, i);
    }
  }

  lemma FoldInjective(x: u64, y: u64, k: nat)
    requires k > 0
    ensures Folded(x, k) == Folded(y, k) <==> x == y
  {
    Pow2of64();
    if Folded(x, k) == Folded(y, k) {
      forall i | 0 <= i < 64 ensures Bit(x, i) == Bit(y, i) { UnfoldBit(x, y, k, i); }
      BitsDetermine(x, y, 64);
    }
  }

  /** Multiplying by a constant with an inverse modulo 2^64 can be undone. */
  lemma TimesBack(x: u64, c: u64, d: u64, q: nat)
    requires c * d == q * TWO64 + 1
    ensures Times(Times(x, c), d) == x
  {
    var k, r := (x * c) / TWO64, (x * c) % TWO64;
    assert x * c == k * TWO64 + r;
    Regroup(x, c, d, q, k, r);
    Laps(x, x * q - k * d, TWO64);
    DivMod(x, 0, x, TWO64);
  }

  lemma Regroup(x: int, c: int, d: int, q: int, k: int, r: int)
    requires c * d == q * TWO64 + 1 && x * c == k * TWO64 + r
    ensures r * d == x + (x * q - k * d) * TWO64
  {
    assert r * d == (x * c) * d - (k * TWO64) * d;
    assert (x * c) * d == x * (c * d) == x * (q * TWO64 + 1) == (x * q) * TWO64 + x;
    assert (k * TWO64) * d == (k * d) * TWO64;
  }
}
