/** The payload checksum: a scalar loop and an unrolled vector loop over four accumulators. */
module Checksum {
  import opened Bytes
  import opened Bits

  /** Four 64-bit lanes: the `sums` array, or one 256-bit register. */
  type Lanes = s: seq<u64> | |s| == 4 witness [0, 0, 0, 0]

  const SEED: Lanes := [0xCBF2_9CE4_8422_2325, 0x9E37_79B9_7F4A_7C15,
                        0xD1B5_4A32_D192_ED03, 0xA076_1D64_78BD_642F]
  const ZERO: Lanes := [0, 0, 0, 0]

  /** `wrapping_add`. */
  function Plus(a: u64, b: u64): u64 {
    if a + b < TWO64 then a + b else a + b - TWO64
  }

  function Add(a: Lanes, b: Lanes): Lanes {
    seq(4, l requires 0 <= l < 4 => Plus(a[l], b[l]))
  }

  /** One little-endian word, zero-extended when fewer than eight bytes remain. */
  function Word(s: seq<byte>): u64
    requires |s| <= 8
  {
    Widths();
    FromLE(s + seq(8 - |s|, _ => 0))
  }

  /** `word ^ (word >> (lane + 1))` for the given lane of the 32 bytes at `at`. */
  function MixedLane(p: seq<byte>, at: nat, lane: nat): u64
    requires at + 32 <= |p| && lane < 4
  {
    Folded(Word(p[at + 8 * lane..at + 8 * lane + 8]), lane + 1)
  }

  function Mixed(p: seq<byte>, at: nat): Lanes
    requires at + 32 <= |p|
  {
    seq(4, lane requires 0 <= lane < 4 => MixedLane(p, at, lane))
  }

  /** Reference: the seed plus the mixed words of the first `n` 32-byte blocks. */
  function BlockSum(p: seq<byte>, n: nat): Lanes
    requires 32 * n <= |p|
  {
    if n == 0 then SEED else Add(BlockSum(p, n - 1), Mixed(p, 32 * (n - 1)))
  }

  /** Reference: the wrapping sum of the words of the remainder. */
  function TailSum(s: seq<byte>): u64
    decreases |s|
  {
    if |s| == 0 then 0
    else if |s| <= 8 then Word(s)
    else Plus(Word(s[..8]), TailSum(s[8..]))
  }

  /** The lanes and the tail brought together. */
  function Gather(s: Lanes, tail: u64): u64 {
    Xor64(Xor64(Xor64(Xor64(s[0], RotL(s[1], 13)), RotL(s[2], 29)), RotL(s[3], 47)), tail)
  }

  const FIRST: u64 := 0xBF58_476D_1CE4_E5B9
  const SECOND: u64 := 0x94D0_49BB_1331_11EB

  function Scramble(a: u64): u64 { Folded(Times(Folded(Times(Folded(a, 30), FIRST), 27), SECOND), 31) }

  function Finalize(s: Lanes, tail: u64): u64 { Scramble(Gather(s, tail)) }

  /** Reference checksum of a payload. */
  function Sum(p: seq<byte>): u64 {
    Finalize(BlockSum(p, |p| / 32), TailSum(p[|p| / 32 * 32..]))
  }

  lemma PlusLaws(a: u64, b: u64, c: u64)
    ensures Plus(a, b) == Plus(b, a)
    ensures Plus(Plus(a, b), c) == Plus(a, Plus(b, c))
  {
  }

  lemma AddLaws(a: Lanes, b: Lanes, c: Lanes)
    ensures Add(a, b) == Add(b, a)
    ensures Add(Add(a, b), c) == Add(a, Add(b, c))
    ensures Add(a, ZERO) == a
  {
    forall l | 0 <= l < 4
      ensures Add(a, b)[l] == Add(b, a)[l]
      ensures Add(Add(a, b), c)[l] == Add(a, Add(b, c))[l]
    {
      PlusLaws(a[l], b[l], c[l]);
    }
  }

  /** Four accumulators and their total. */
  function Total(a: Lanes, b: Lanes, c: Lanes, d: Lanes): Lanes {
    Add(Add(a, b), Add(c, d))
  }

  /** Adding to any one accumulator adds to the total. */
  lemma AddToAny(a: Lanes, b: Lanes, c: Lanes, d: Lanes, x: Lanes)
    ensures Total(Add(a, x), b, c, d) == Add(Total(a, b, c, d), x)
    ensures Total(a, Add(b, x), c, d) == Add(Total(a, b, c, d), x)
    ensures Total(a, b, Add(c, x), d) == Add(Total(a, b, c, d), x)
    ensures Total(a, b, c, Add(d, x)) == Add(Total(a, b, c, d), x)
  {
    Swap(a, x, b);
    Swap(Add(a, b), x, Add(c, d));
    AddLaws(a, b, x);
    Swap(c, x, d);
    AddLaws(c, d, x);
    AddLaws(Add(a, b), Add(c, d), x);
  }

  lemma Swap(a: Lanes, x: Lanes, b: Lanes)
    ensures Add(Add(a, x), b) == Add(Add(a, b), x)
  {
    AddLaws(a, x, b);
    AddLaws(x, b, a);
    AddLaws(a, b, x);
  }

  method TailWords(s: seq<byte>) returns (tail: u64)
    ensures tail == TailSum(s)
  {
    tail := 0;
    var at := 0;
    assert s[0..] == s;
    while at < |s|
      invariant 0 <= at <= |s|
      invariant Plus(tail, TailSum(s[at..])) == TailSum(s)
    {
      var end := if at + 8 <= |s| then at + 8 else |s|;
      var rest := s[at..];
      assert s[at..end] == if |rest| <= 8 then rest else rest[..8];
      assert s[end..] == if |rest| <= 8 then [] else rest[8..];
      tail := Plus(tail, Word(s[at..end]));
      at := end;
    }
  }

  /** The lanes after the scalar block loop. */
  lemma BlockSumNext(payload: seq<byte>, n: nat)
    requires 32 * (n + 1) <= |payload|
    ensures BlockSum(payload, n + 1) == Add(BlockSum(payload, n), Mixed(payload, 32 * n))
  {
  }

  /** One block added lane by lane. */
  method AddBlock(sums: Lanes, payload: seq<byte>, at: nat) returns (added: Lanes)
    requires at + 32 <= |payload|
    ensures added == Add(sums, Mixed(payload, at))
  {
    added := sums;
    for lane := 0 to 4
      invariant forall l :: 0 <= l < 4 ==> added[l] == if l < lane then Add(sums, Mixed(payload, at))[l] else sums[l]
    {
      added := added[lane := Plus(added[lane], MixedLane(payload, at, lane))];
    }
  }

  method ScalarBlocks(payload: seq<byte>) returns (sums: Lanes)
    ensures sums == BlockSum(payload, |payload| / 32)
  {
    sums := SEED;
    var i := 0;
    while i < |payload| / 32
      invariant 0 <= i <= |payload| / 32
      invariant sums == BlockSum(payload, i)
    {
      BlockSumNext(payload, i);
      sums := AddBlock(sums, payload, 32 * i);
      i := i + 1;
    }
  }

  lemma AddToEach(a: Lanes, b: Lanes, c: Lanes, d: Lanes, w: Lanes, x: Lanes, y: Lanes, z: Lanes)
    ensures Total(Add(a, w), Add(b, x), Add(c, y), Add(d, z)) == Add(Add(Add(Add(Total(a, b, c, d), w), x), y), z)
  {
    AddToAny(a, b, c, d, w);
    AddToAny(Add(a, w), b, c, d, x);
    AddToAny(Add(a, w), Add(b, x), c, d, y);
    AddToAny(Add(a, w), Add(b, x), Add(c, y), d, z);
  }

  lemma FourBlocks(p: seq<byte>, n: nat)
    requires 32 * n + 128 <= |p|
    ensures BlockSum(p, n + 4)
         == Add(Add(Add(Add(BlockSum(p, n), Mixed(p, 32 * n)), Mixed(p, 32 * n + 32)), Mixed(p, 32 * n + 64)), Mixed(p, 32 * n + 96))
  {
    assert BlockSum(p, n + 2) == Add(Add(BlockSum(p, n), Mixed(p, 32 * n)), Mixed(p, 32 * n + 32));
  }

  /** The lanes after the vector loops: four blocks a turn into four accumulators, the
      blocks left over into the first, and the accumulators added at the end. */
  method Avx2Blocks(payload: seq<byte>) returns (sums: Lanes)
    ensures sums == BlockSum(payload, |payload| / 32)
  {
    var sums0, sums1, sums2, sums3 := SEED, ZERO, ZERO, ZERO;
    var fullBytes := |payload| / 32 * 32;
    var offset := 0;
    ghost var n := 0;
    AddLaws(SEED, ZERO, ZERO);
    AddLaws(ZERO, ZERO, ZERO);
    while offset + 128 <= fullBytes
      invariant offset == 32 * n <= fullBytes
      invariant Total(sums0, sums1, sums2, sums3) == BlockSum(payload, n)
    {
      var w0, w1 := Mixed(payload, offset), Mixed(payload, offset + 32);
      var w2, w3 := Mixed(payload, offset + 64), Mixed(payload, offset + 96);
      FourBlocks(payload, n);
      AddToEach(sums0, sums1, sums2, sums3, w0, w1, w2, w3);
      sums0, sums1, sums2, sums3 := Add(sums0, w0), Add(sums1, w1), Add(sums2, w2), Add(sums3, w3);
      offset := offset + 128;
      n := n + 4;
    }
    sums0 := LeftoverBlocks(payload, offset, fullBytes, n, |payload| / 32, sums0, sums1, sums2, sums3);
    sums := Total(sums0, sums1, sums2, sums3);
  }

  method LeftoverBlocks(payload: seq<byte>, start: nat, fullBytes: nat, ghost m: nat, ghost blocks: nat,
                        a: Lanes, b: Lanes, c: Lanes, d: Lanes)
    returns (a': Lanes)
    requires start == 32 * m <= fullBytes == 32 * blocks <= |payload|
    requires Total(a, b, c, d) == BlockSum(payload, m)
    ensures Total(a', b, c, d) == BlockSum(payload, blocks)
  {
    var offset := start;
    ghost var n := m;
    a' := a;
    hide BlockSum, Total, Add, Mixed;
    while offset < fullBytes
      invariant offset == 32 * n <= fullBytes
      invariant Total(a', b, c, d) == BlockSum(payload, n)
    {
      BlockSumNext(payload, n);
      AddToAny(a', b, c, d, Mixed(payload, offset));
      a' := Add(a', Mixed(payload, offset));
      offset := offset + 32;
      n := n + 1;
    }
  }

  method ChecksumScalar(payload: seq<byte>) returns (c: u64)
    ensures c == Sum(payload)
  {
    var sums := ScalarBlocks(payload);
    var tail := TailWords(payload[|payload| / 32 * 32..]);
    c := Finalize(sums, tail);
  }

  method ChecksumAvx2(payload: seq<byte>) returns (c: u64)
    ensures c == Sum(payload)
  {
    var sums := Avx2Blocks(payload);
    var tail := TailWords(payload[|payload| / 32 * 32..]);
    c := Finalize(sums, tail);
  }
}
