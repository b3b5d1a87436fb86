/** Stream dimensions: how a validated shape tiles the byte stream with chunks, slots and
    generations, and how an arena lays its regions out. */
module Shape {
  import opened Bytes
  import opened Wrappers
  import opened Frames
  import Arith

  datatype StreamShape = StreamShape(total: u64, chunk: u64, slots: u64)

  function DivCeil(a: nat, b: nat): nat
    requires b > 0
  {
    if a % b == 0 then a / b else a / b + 1
  }

  function Chunks(s: StreamShape): nat
    requires s.chunk > 0
  {
    DivCeil(s.total, s.chunk)
  }

  /** `StreamShape::validate`. */
  predicate Valid(s: StreamShape) {
    && 1 <= s.chunk <= U32_MAX
    && 1 <= s.slots <= U32_MAX
    && s.slots * s.chunk <= ISIZE_MAX
    && DivCeil(Chunks(s), s.slots) <= U32_MAX
  }

  datatype Meta = Meta(offset: nat, len: nat, slot: nat, generation: nat)

  /** `chunk_meta`, with its overflow checks. */
  function ChunkMeta(s: StreamShape, k: nat): Result<Meta>
    requires s.chunk > 0 && s.slots > 0
  {
    var offset := k * s.chunk;
    if offset >= TWO64 then Err
    else
      var remaining := if offset <= s.total then s.total - offset else 0;
      var len := if remaining < s.chunk then remaining else s.chunk;
      var generation := k / s.slots + 1;
      if generation > U32_MAX then Err
      else Ok(Meta(offset, len, k % s.slots, generation))
  }

  lemma DivCeilBounds(a: nat, b: nat)
    requires b > 0
    ensures DivCeil(a, b) * b >= a
    ensures a > 0 ==> DivCeil(a, b) >= 1 && (DivCeil(a, b) - 1) * b < a
    ensures a == 0 ==> DivCeil(a, b) == 0
  {
    assert a == (a / b) * b + a % b;
    if a % b != 0 {
      assert (a / b + 1) * b == (a / b) * b + b;
    } else {
      assert (a / b - 1) * b == (a / b) * b - b;
    }
    if a == 0 { Arith.DivMod(0, 0, 0, b); }
  }

  lemma MulLe(a: int, b: int, c: nat)
    requires a <= b
    ensures a * c <= b * c
  {
    assert b * c == a * c + (b - a) * c;
  }

  lemma DivCeilMono(a: nat, a': nat, b: nat)
    requires b > 0 && a <= a'
    ensures DivCeil(a, b) <= DivCeil(a', b)
  {
    DivCeilBounds(a, b);
    DivCeilBounds(a', b);
    if DivCeil(a, b) > DivCeil(a', b) { MulLe(DivCeil(a', b), DivCeil(a, b) - 1, b); }
  }

  /** Below ceil(a / b), multiples of `b` stay below `a`. */
  lemma BelowCeil(k: nat, a: nat, b: nat)
    requires b > 0 && k < DivCeil(a, b)
    ensures k * b < a && k < a
    ensures k + 1 < DivCeil(a, b) ==> (k + 1) * b < a
    ensures k + 1 == DivCeil(a, b) ==> (k + 1) * b >= a
  {
    DivCeilBounds(a, b);
    MulLe(k, DivCeil(a, b) - 1, b);
    if k + 1 < DivCeil(a, b) { MulLe(k + 1, DivCeil(a, b) - 1, b); }
    if k > 0 { Arith.MulAtLeast(b, k); assert b * k == k * b; }
  }

  /** The generation of every chunk of a valid shape fits its field. */
  lemma GenerationFits(n: nat, slots: nat, k: nat)
    requires slots > 0 && k < n
    ensures k / slots + 1 <= DivCeil(n, slots)
  {
    DivCeilBounds(n, slots);
    var g := k / slots;
    assert g * slots <= k;
    if g + 1 > DivCeil(n, slots) {
      MulLe(DivCeil(n, slots), g, slots);
    }
  }

  /** Where chunk `k` starts. */
  function Start(s: StreamShape, k: nat): nat { k * s.chunk }

  /** Where chunk `k` ends: the chunks of a valid shape tile [0, total). */
  function End(s: StreamShape, k: nat): nat {
    if (k + 1) * s.chunk < s.total then (k + 1) * s.chunk else s.total
  }

  lemma EndBounds(s: StreamShape, k: nat)
    requires s.chunk > 0 && k < Chunks(s)
    ensures k < TWO64 && Start(s, k) < End(s, k) <= s.total
    ensures End(s, k) == if Start(s, k) + s.chunk < s.total then Start(s, k) + s.chunk else s.total
    ensures k + 1 < Chunks(s) ==> End(s, k) == Start(s, k + 1)
    ensures k + 1 == Chunks(s) ==> End(s, k) == s.total
  {
    BelowCeil(k, s.total, s.chunk);
    assert (k + 1) * s.chunk == k * s.chunk + s.chunk;
  }

  /** For every chunk of a valid shape `chunk_meta` succeeds, and the chunks are non-empty,
      at most `chunk` bytes, and tile [0, total) without overflow. */
  lemma ChunksTile(s: StreamShape, k: nat)
    requires Valid(s) && k < Chunks(s)
    ensures k < TWO64
    ensures ChunkMeta(s, k).Ok?
    ensures var m := ChunkMeta(s, k).value;
      m.offset == Start(s, k) && m.len == End(s, k) - Start(s, k) && m.slot == k % s.slots && m.generation == k / s.slots + 1
    ensures Start(s, k) < End(s, k) <= s.total && End(s, k) - Start(s, k) <= s.chunk
    ensures k + 1 < Chunks(s) ==> End(s, k) == Start(s, k + 1)
    ensures k + 1 == Chunks(s) ==> End(s, k) == s.total
  {
    EndBounds(s, k);
    assert k / s.slots + 1 <= U32_MAX by { GenerationFits(Chunks(s), s.slots, k); }
    assert End(s, k) - Start(s, k) <= s.chunk;
    MetaOk(s, k);
  }

  lemma MetaOk(s: StreamShape, k: nat)
    requires s.chunk > 0 && s.slots > 0 && k / s.slots + 1 <= U32_MAX
    requires Start(s, k) < End(s, k) <= s.total
    requires End(s, k) == if Start(s, k) + s.chunk < s.total then Start(s, k) + s.chunk else s.total
    ensures ChunkMeta(s, k).Ok?
    ensures var m := ChunkMeta(s, k).value;
      m.offset == Start(s, k) && m.len == End(s, k) - Start(s, k) && m.slot == k % s.slots && m.generation == k / s.slots + 1
  {
  }

  /** A slot and a generation identify one chunk. */
  lemma SlotGenerationIdentify(s: StreamShape, j: u64, k: u64)
    requires Valid(s) && ChunkMeta(s, j).Ok? && ChunkMeta(s, k).Ok?
    requires ChunkMeta(s, j).value.slot == ChunkMeta(s, k).value.slot
    requires ChunkMeta(s, j).value.generation == ChunkMeta(s, k).value.generation
    ensures j == k
  {
    assert j == (j / s.slots) * s.slots + j % s.slots;
    assert k == (k / s.slots) * s.slots + k % s.slots;
  }

  // ---- arena layout -----------------------------------------------------------

  const HEADER_LEN: nat := 448
  const CACHE_LINE: nat := 64

  /** The smallest power of two at least `n` reached from `p` by doubling. */
  function NextPow2From(n: nat, p: nat): (r: nat)
    requires p > 0
    ensures r >= n && r >= p
    ensures r < 2 * n || r == p
    decreases n - p
  {
    if p >= n then p else NextPow2From(n, 2 * p)
  }

  predicate IsPow2(n: nat) {
    n == 1 || (n > 1 && n % 2 == 0 && IsPow2(n / 2))
  }

  lemma {:induction false} NextPow2IsPow2(n: nat, p: nat)
    requires p > 0 && IsPow2(p)
    ensures IsPow2(NextPow2From(n, p))
    decreases n - p
  {
    if p < n { NextPow2IsPow2(n, 2 * p); }
  }

  function DescriptorCapacity(slots: u64): Result<u64> {
    if slots * 2 + 2 >= TWO64 then Err
    else
      var p := NextPow2From(slots * 2 + 2, 1);
      if p >= TWO64 then Err else Ok(p)
  }

  function AlignUp(v: u64): Result<u64> {
    if v + (CACHE_LINE - 1) >= TWO64 then Err else Ok((v + (CACHE_LINE - 1)) / CACHE_LINE * CACHE_LINE)
  }

  datatype Layout = Layout(len: nat, payloadOffset: nat)

  function ArenaLayout(slots: u64, slotLen: u64, capacity: u64): Result<Layout> {
    if (slots == 0) != (slotLen == 0) || capacity < 2 || !IsPow2(capacity) || capacity > U32_MAX then Err
    else
      var descriptors := capacity * FRAME_LEN;
      if descriptors >= TWO64 || HEADER_LEN + descriptors >= TWO64 then Err
      else
        var payloadOffset :- AlignUp(HEADER_LEN + descriptors);
        var payload := slots * slotLen;
        if payload >= TWO64 || payloadOffset + payload >= TWO64 || payloadOffset + payload > ISIZE_MAX then Err
        else Ok(Layout(payloadOffset + payload, payloadOffset))
  }

  /** In every accepted layout, with or without slots, the payload is cache-line aligned; each descriptor `d` lies between
      the header and the payload, clear of every later one; each payload window `i` lies in bounds, clear of every later one. */
  lemma LayoutDisjoint(slots: u64, slotLen: u64, capacity: u64, d: nat, e: nat, i: nat, j: nat)
    requires ArenaLayout(slots, slotLen, capacity).Ok?
    ensures var l := ArenaLayout(slots, slotLen, capacity).value;
      && l.payloadOffset % CACHE_LINE == 0 && HEADER_LEN + capacity * FRAME_LEN <= l.payloadOffset <= l.len <= ISIZE_MAX
      && (d < capacity ==> HEADER_LEN + (d + 1) * FRAME_LEN <= l.payloadOffset)
      && (d < e < capacity ==> HEADER_LEN + (d + 1) * FRAME_LEN <= HEADER_LEN + e * FRAME_LEN)
      && (i < slots ==> l.payloadOffset + i * slotLen + slotLen <= l.len)
      && (i < j < slots ==> l.payloadOffset + i * slotLen + slotLen <= l.payloadOffset + j * slotLen)
      && (slots == 0 ==> l.len == l.payloadOffset)
  {
    if i < slots {
      MulLe(i + 1, slots, slotLen);
      assert (i + 1) * slotLen == i * slotLen + slotLen;
      if i < j { MulLe(i + 1, j, slotLen); }
    }
  }

  /** The descriptor rings of an accepted direction hold more than twice the slots, and their
      capacity is at most 2^31. */
  lemma CapacityCoversSlots(s: StreamShape)
    requires Valid(s) && DescriptorCapacity(s.slots).Ok?
    requires ArenaLayout(s.slots, s.chunk, DescriptorCapacity(s.slots).value).Ok?
    ensures var c := DescriptorCapacity(s.slots).value;
      2 * s.slots + 2 <= c <= 0x8000_0000 && IsPow2(c)
  {
    var c := DescriptorCapacity(s.slots).value;
    TwoTo31();
    Pow2AtMostHalf(c, 0x8000_0000);
  }

  lemma TwoTo31()
    ensures IsPow2(0x8000_0000)
  {
    assert Pow2(8) == 0x100 && Pow2(16) == 0x1_0000 && Pow2(24) == 0x100_0000 && Pow2(31) == 0x8000_0000;
    Pow2IsPow2(31);
  }

  lemma {:induction false} Pow2IsPow2(k: nat)
    ensures IsPow2(Pow2(k))
  {
    if k > 0 { Pow2IsPow2(k - 1); }
  }

  /** A power of two below twice a power of two is at most that power. */
  lemma {:induction false} Pow2AtMostHalf(c: nat, p: nat)
    requires IsPow2(c) && IsPow2(p) && c < 2 * p
    ensures c <= p
    decreases p
  {
    if p > 1 && c > 1 { Pow2AtMostHalf(c / 2, p / 2); }
  }

  /** Doubling stops at the least power of two that is large enough. */
  lemma {:induction false} LeastPow2(n: nat, p: nat, q: nat)
    requires p > 0 && IsPow2(p) && IsPow2(q) && q >= n && q >= p
    ensures NextPow2From(n, p) <= q
    decreases n - p
  {
    if p < n {
      if 2 * p > q { Pow2AtMostHalf(q, p); }
      LeastPow2(n, 2 * p, q);
    }
  }

  lemma TwoTo63()
    ensures IsPow2(0x8000_0000_0000_0000)
  {
    Pow2of64();
    assert 2 * Pow2(63) == Pow2(64);
    Pow2IsPow2(63);
  }

  /** Descriptor rings get the least power of two that covers every slot twice and two more; it exists in a word for at most
      2^62 - 1 slots. */
  lemma CapacityAccepted(slots: u64, q: nat)
    requires IsPow2(q) && q >= 2 * slots + 2
    ensures DescriptorCapacity(slots).Ok? <==> slots < 0x4000_0000_0000_0000
    ensures DescriptorCapacity(slots).Ok? ==>
      var c := DescriptorCapacity(slots).value; IsPow2(c) && 2 * slots + 2 <= c <= q
  {
    var n := 2 * slots + 2;
    NextPow2IsPow2(n, 1);
    LeastPow2(n, 1, q);
    TwoTo63();
    var p := NextPow2From(n, 1);
    if n <= 0x8000_0000_0000_0000 { LeastPow2(n, 1, 0x8000_0000_0000_0000); }
    else if p < TWO64 { Pow2AtMostHalf(p, 0x8000_0000_0000_0000); }
  }

  lemma AlignedAt(v: u64, offset: nat)
    requires offset % CACHE_LINE == 0 && v <= offset < v + CACHE_LINE && v + CACHE_LINE <= TWO64
    ensures AlignUp(v) == Ok(offset)
  {
    assert offset == offset / CACHE_LINE * CACHE_LINE;
    Arith.DivMod(v + (CACHE_LINE - 1), offset / CACHE_LINE, v + (CACHE_LINE - 1) - offset, CACHE_LINE);
  }

  /** An arena is accepted exactly when slots and slot length are zero together, the capacity is a power of two from 2 to 2^31, and
      the payload, placed at the first cache line behind the descriptors, ends within the address space. */
  lemma LayoutAccepted(slots: u64, slotLen: u64, capacity: u64, offset: nat)
    requires offset % CACHE_LINE == 0 && HEADER_LEN + capacity * FRAME_LEN <= offset < HEADER_LEN + capacity * FRAME_LEN + CACHE_LINE
    ensures ArenaLayout(slots, slotLen, capacity) ==
      if (slots == 0 <==> slotLen == 0) && 2 <= capacity <= 0x8000_0000 && IsPow2(capacity) && offset + slots * slotLen <= ISIZE_MAX
      then Ok(Layout(offset + slots * slotLen, offset)) else Err
  {
    hide IsPow2, AlignUp;
    TwoTo31();
    if IsPow2(capacity) && capacity <= U32_MAX {
      Pow2AtMostHalf(capacity, 0x8000_0000);
      AlignedAt(HEADER_LEN + capacity * FRAME_LEN, offset);
    }
  }
}
