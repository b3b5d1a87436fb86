/** What the checksum tells apart: its finalizer loses nothing, so it sees every change of a lane, of the tail, and of any
    one word of a payload. */
module ChecksumLaws {
  import Arith
  import opened Bytes
  import opened Bits
  import opened Checksum

  // ---- the finalizer is a bijection ---------------------------------------------------------

  lemma TimesInjective(x: u64, y: u64, c: u64, d: u64, q: nat)
    requires c * d == q * TWO64 + 1
    ensures Times(x, c) == Times(y, c) <==> x == y
  {
    TimesBack(x, c, d, q);
    TimesBack(y, c, d, q);
  }

  lemma Odd()
    ensures FIRST * 0x96DE_1B17_3F11_9089 == 8125545580553827436 * TWO64 + 1
    ensures SECOND * 0x3196_42B2_D24D_8EC3 == 2077064247507883091 * TWO64 + 1
  {
  }

  lemma ScrambleInjective(a: u64, b: u64)
    ensures Scramble(a) == Scramble(b) <==> a == b
  {
    hide Folded, Times;
    Odd();
    FoldInjective(a, b, 30);
    var (c, d) := (Folded(a, 30), Folded(b, 30));
    TimesInjective(c, d, FIRST, 0x96DE_1B17_3F11_9089, 8125545580553827436);
    var (e, f) := (Times(c, FIRST), Times(d, FIRST));
    FoldInjective(e, f, 27);
    var (g, h) := (Folded(e, 27), Folded(f, 27));
    TimesInjective(g, h, SECOND, 0x3196_42B2_D24D_8EC3, 2077064247507883091);
    FoldInjective(Times(g, SECOND), Times(h, SECOND), 31);
  }

  /** With the same lanes the result tells the tails apart. */
  lemma TailSeen(s: Lanes, t: u64, u: u64)
    ensures Finalize(s, t) == Finalize(s, u) <==> t == u
  {
    hide Xor64, RotL, Scramble;
    ScrambleInjective(Gather(s, t), Gather(s, u));
    XorInjective(Xor64(Xor64(Xor64(s[0], RotL(s[1], 13)), RotL(s[2], 29)), RotL(s[3], 47)), t, u);
  }

  /** With the same tail and the other lanes the same, the result tells the values of one lane apart. */
  lemma LaneSeen(s: Lanes, r: Lanes, l: nat, t: u64)
    requires l < 4 && forall k :: 0 <= k < 4 && k != l ==> s[k] == r[k]
    ensures Finalize(s, t) == Finalize(r, t) <==> s[l] == r[l]
  {
    hide Xor64, RotL, Scramble;
    ScrambleInjective(Gather(s, t), Gather(r, t));
    var (s1, r1) := (RotL(s[1], 13), RotL(r[1], 13));
    var (s2, r2) := (RotL(s[2], 29), RotL(r[2], 29));
    var (s3, r3) := (RotL(s[3], 47), RotL(r[3], 47));
    RotLInjective(s[1], r[1], 13);
    RotLInjective(s[2], r[2], 29);
    RotLInjective(s[3], r[3], 47);
    var (a, b) := (Xor64(s[0], s1), Xor64(r[0], r1));
    XorInjective(s[0], s1, r1);
    XorInjective(s1, s[0], r[0]);
    var (c, d) := (Xor64(a, s2), Xor64(b, r2));
    XorInjective(a, s2, r2);
    XorInjective(s2, a, b);
    var (e, f) := (Xor64(c, s3), Xor64(d, r3));
    XorInjective(c, s3, r3);
    XorInjective(s3, c, d);
    XorInjective(t, e, f);
  }

  // ---- payloads -------------------------------------------------------------------------------

  /** For payloads whose blocks give the same lanes, the checksums agree exactly when the tail sums do. */
  lemma SumSeesTail(p: seq<byte>, q: seq<byte>)
    requires |p| == |q| && BlockSum(p, |p| / 32) == BlockSum(q, |q| / 32)
    ensures Sum(p) == Sum(q) <==> TailSum(p[|p| / 32 * 32..]) == TailSum(q[|q| / 32 * 32..])
  {
    hide Finalize, BlockSum, TailSum;
    TailSeen(BlockSum(p, |p| / 32), TailSum(p[|p| / 32 * 32..]), TailSum(q[|q| / 32 * 32..]));
  }

  lemma PlusInjective(a: u64, x: u64, y: u64)
    ensures Plus(a, x) == Plus(a, y) <==> x == y
    ensures Plus(x, a) == Plus(y, a) <==> x == y
  {
  }

  /** Different bytes make different words. */
  lemma WordInjective(s: seq<byte>, t: seq<byte>)
    requires |s| == |t| <= 8
    ensures Word(s) == Word(t) <==> s == t
  {
    hide FromLE;
    var z: seq<byte> := seq(8 - |s|, _ => 0);
    LEofFromLE(s + z);
    LEofFromLE(t + z);
    assert (s + z)[..|s|] == s && (t + z)[..|s|] == t;
  }

  /** `p` and `q` agree except inside the word of eight bytes (fewer at the end) that starts at `at`. */
  predicate DifferAt(p: seq<byte>, q: seq<byte>, at: nat) {
    && |p| == |q|
    && (exists i :: at <= i < |p| && i < at + 8 && p[i] != q[i])
    && (forall i :: 0 <= i < |p| && (i < at || at + 8 <= i) ==> p[i] == q[i])
  }

  lemma {:induction false} TailDiffers(s: seq<byte>, t: seq<byte>, w: nat)
    requires DifferAt(s, t, 8 * w)
    ensures TailSum(s) != TailSum(t)
    decreases |s|
  {
    hide Word, Plus;
    var i :| 8 * w <= i < |s| && i < 8 * w + 8 && s[i] != t[i];
    if |s| <= 8 {
      WordInjective(s, t);
    } else {
      var (a, b, x, y) := (s[..8], t[..8], s[8..], t[8..]);
      WordInjective(a, b);
      if w == 0 {
        assert x == y && a[i] != b[i];
      } else {
        assert a == b && x[i - 8] != y[i - 8];
        TailDiffers(x, y, w - 1);
      }
      PlusInjective(Word(a), TailSum(x), TailSum(y));
      PlusInjective(TailSum(x), Word(a), Word(b));
    }
  }

  /** The mixed words of a block differ exactly in the lane of the word that differs. */
  lemma MixedDiffers(p: seq<byte>, q: seq<byte>, w: nat, j: nat, l: nat)
    requires DifferAt(p, q, 8 * w) && 32 * (j + 1) <= |p| && l < 4
    ensures MixedLane(p, 32 * j, l) == MixedLane(q, 32 * j, l) <==> w != 4 * j + l
  {
    hide Folded, Word;
    var at := 32 * j + 8 * l;
    var (x, y) := (p[at..at + 8], q[at..at + 8]);
    WordInjective(x, y);
    FoldInjective(Word(x), Word(y), l + 1);
    if w == 4 * j + l {
      var i :| at <= i < |p| && i < at + 8 && p[i] != q[i];
      assert x[i - at] != y[i - at];
    } else {
      assert x == y;
    }
  }

  lemma LaneNext(p: seq<byte>, n: nat, l: nat)
    requires 0 < n && 32 * n <= |p| && l < 4
    ensures BlockSum(p, n)[l] == Plus(BlockSum(p, n - 1)[l], MixedLane(p, 32 * (n - 1), l))
  {
    hide MixedLane, Plus;
  }

  lemma WordIndex(w: nat, n: nat, l: nat)
    requires n > 0 && l < 4
    ensures w < 4 * n && w % 4 == l <==> (w < 4 * (n - 1) && w % 4 == l) || w == 4 * (n - 1) + l
  {
  }

  lemma {:induction false} BlocksDiffer(p: seq<byte>, q: seq<byte>, w: nat, n: nat, l: nat)
    requires DifferAt(p, q, 8 * w) && 32 * n <= |p| && l < 4
    ensures BlockSum(p, n)[l] == BlockSum(q, n)[l] <==> !(w < 4 * n && w % 4 == l)
    decreases n
  {
    hide MixedLane, BlockSum, Plus;
    if n > 0 {
      BlocksDiffer(p, q, w, n - 1, l);
      MixedDiffers(p, q, w, n - 1, l);
      LaneNext(p, n, l);
      LaneNext(q, n, l);
      var (a, b) := (BlockSum(p, n - 1)[l], BlockSum(q, n - 1)[l]);
      var (x, y) := (MixedLane(p, 32 * (n - 1), l), MixedLane(q, 32 * (n - 1), l));
      PlusInjective(a, x, y);
      PlusInjective(x, a, b);
      WordIndex(w, n, l);
    } else {
      NoBlocks(p, q);
    }
  }

  lemma NoBlocks(p: seq<byte>, q: seq<byte>)
    ensures BlockSum(p, 0) == BlockSum(q, 0)
  {
  }

  /** Every change inside one aligned word changes the checksum; so does every change of a single byte. */
  lemma WordSeen(p: seq<byte>, q: seq<byte>, w: nat)
    requires DifferAt(p, q, 8 * w)
    ensures Sum(p) != Sum(q)
  {
    var n := |p| / 32;
    var (s, r) := (BlockSum(p, n), BlockSum(q, n));
    var (x, y) := (p[n * 32..], q[n * 32..]);
    forall l | 0 <= l < 4 ensures s[l] == r[l] <==> !(w < 4 * n && w % 4 == l) { BlocksDiffer(p, q, w, n, l); }
    hide Finalize, BlockSum;
    if w < 4 * n {
      assert x == y;
      LaneSeen(s, r, w % 4, TailSum(x));
    } else {
      assert s == r;
      var i :| 8 * w <= i < |p| && i < 8 * w + 8 && p[i] != q[i];
      assert x[i - n * 32] != y[i - n * 32];
      TailDiffers(x, y, w - 4 * n);
      TailSeen(s, TailSum(x), TailSum(y));
    }
  }

  lemma ByteSeen(p: seq<byte>, q: seq<byte>, i: nat)
    requires |p| == |q| && i < |p| && p[i] != q[i] && forall k :: 0 <= k < |p| && k != i ==> p[k] == q[k]
    ensures Sum(p) != Sum(q)
  {
    WordSeen(p, q, i / 8);
  }

  // ---- the running aggregate of a transfer ----------------------------------------------------

  const GOLDEN: u64 := 0x9E37_79B9_7F4A_7C15

  /** `fold_checksum`: one more frame, with its checksum and its offset. */
  function Fold(aggregate: u64, checksum: u64, offset: u64): u64 {
    Xor64(Xor64(RotL(aggregate, 7), checksum), Times(offset, GOLDEN))
  }

  lemma GoldenOdd()
    ensures GOLDEN * 0xF1DE_83E1_9937_733D == 10771413168148108919 * TWO64 + 1
  {
  }

  /** A fold loses nothing of any of its three parts. */
  lemma FoldSees(a: u64, b: u64, c: u64, d: u64, o: u64, p: u64)
    ensures Fold(a, c, o) == Fold(b, c, o) <==> a == b
    ensures Fold(a, c, o) == Fold(a, d, o) <==> c == d
    ensures Fold(a, c, o) == Fold(a, c, p) <==> o == p
  {
    hide Xor64, RotL, Times;
    GoldenOdd();
    TimesInjective(o, p, GOLDEN, 0xF1DE_83E1_9937_733D, 10771413168148108919);
    RotLInjective(a, b, 7);
    var (x, y, z) := (RotL(a, 7), RotL(b, 7), Times(o, GOLDEN));
    XorInjective(c, x, y);
    XorInjective(x, c, d);
    XorInjective(z, Xor64(x, c), Xor64(y, c));
    XorInjective(z, Xor64(x, c), Xor64(x, d));
    XorInjective(Xor64(x, c), z, Times(p, GOLDEN));
  }

  /** The aggregate over a whole transfer. */
  function FoldAll(checksums: seq<u64>, offsets: seq<u64>): u64
    requires |checksums| == |offsets|
  {
    if checksums == [] then 0
    else
      var l := |checksums| - 1;
      Fold(FoldAll(checksums[..l], offsets[..l]), checksums[l], offsets[l])
  }

  /** Over transfers of the same frames, the aggregate sees a change of any one chunk's checksum, wherever it is. */
  lemma {:induction false} AggregateSees(a: seq<u64>, b: seq<u64>, offsets: seq<u64>, k: nat)
    requires |a| == |b| == |offsets| && k < |a| && a[k] != b[k] && forall i :: 0 <= i < |a| && i != k ==> a[i] == b[i]
    ensures FoldAll(a, offsets) != FoldAll(b, offsets)
  {
    hide Fold;
    var l := |a| - 1;
    var (x, y) := (FoldAll(a[..l], offsets[..l]), FoldAll(b[..l], offsets[..l]));
    FoldSees(x, y, a[l], b[l], offsets[l], offsets[l]);
    if k == l {
      assert a[..l] == b[..l];
    } else {
      AggregateSees(a[..l], b[..l], offsets[..l], k);
    }
  }

  lemma XorZero(x: u64)
    ensures Xor64(x, 0) == x && Xor64(0, x) == x
  {
    hide Xor64;
    Pow2of64();
    forall i | 0 <= i < 64 ensures Bit(Xor64(x, 0), i) == Bit(x, i) && Bit(Xor64(0, x), i) == Bit(x, i) {
      BitXor64(x, 0, i);
      BitXor64(0, x, i);
      BitZero(i);
      BitRange(x, i);
    }
    BitsDetermine(Xor64(x, 0), x, 64);
    BitsDetermine(Xor64(0, x), x, 64);
  }

  lemma {:induction false} BitZero(i: nat)
    ensures Bit(0, i) == 0
  {
    if i > 0 { BitZero(i - 1); }
  }

  lemma {:induction false} BitRange(x: nat, i: nat)
    ensures 0 <= Bit(x, i) < 2
  {
    if i > 0 { BitRange(x / 2, i - 1); }
  }

  lemma {:induction false} ShrSmall(x: u64, k: nat)
    requires x < Pow2(k)
    ensures Shr(x, k) == 0
    decreases k
  {
    if k > 0 { ShrSmall(x / 2, k - 1); }
  }

  lemma TwoTo57()
    ensures Pow2(57) == 0x200_0000_0000_0000 && Pow2(7) == 128
  {
    Pow2of64();
    assert Pow2(64) == 2 * Pow2(63) && Pow2(63) == 2 * Pow2(62) && Pow2(62) == 2 * Pow2(61) && Pow2(61) == 2 * Pow2(60);
    assert Pow2(60) == 2 * Pow2(59) && Pow2(59) == 2 * Pow2(58) && Pow2(58) == 2 * Pow2(57);
  }

  lemma RotateSmall(a: u64)
    requires a < 0x200_0000_0000_0000
    ensures RotL(a, 7) == 128 * a
  {
    TwoTo57();
    ShrSmall(a, 57);
    hide Pow2, Shr;
    Arith.DivMod(128 * a, 0, 128 * a, TWO64);
  }

  /** What a fold does to each part alone: the aggregate moves up seven places, the checksum stands as it is, and the offset is spread by the
      odd constant. */
  lemma FoldAnswers(c: u64, a: u64)
    ensures Fold(0, c, 0) == c
    ensures a < 0x200_0000_0000_0000 ==> Fold(a, 0, 0) == 128 * a
    ensures Fold(0, 0, 1) == 0x9E37_79B9_7F4A_7C15
  {
    hide Xor64, RotL;
    RotateSmall(0);
    if a < 0x200_0000_0000_0000 { RotateSmall(a); }
    Arith.DivMod(0, 0, 0, TWO64);
    Arith.DivMod(GOLDEN, 0, GOLDEN, TWO64);
    assert Times(0, GOLDEN) == 0 && Times(1, GOLDEN) == GOLDEN;
    hide Times;
    XorZero(c);
    XorZero(RotL(a, 7));
    XorZero(0);
    XorZero(GOLDEN);
  }
}
