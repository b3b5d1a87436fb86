/** What the two ends of a stream accept from each other: the frame that is due, field by field, and nothing else. */
module StreamFrames {
  import opened Bytes
  import opened Wrappers
  import opened Frames
  import opened Shape
  import opened Stream
  import opened StreamSafety

  /** The DATA frame due as chunk `k` at `offset` if the slot holds `len` bytes of it. */
  function Due(g: Config, mem: seq<seq<byte>>, k: nat, offset: nat, len: nat): Frame
    requires Opened(g) && k % g.shape.slots < |mem| && len <= |mem[k % g.shape.slots]|
  {
    Frame(Data, g.flags, g.transfer, offset, k % g.shape.slots, k / g.shape.slots + 1, len, g.sum(mem[k % g.shape.slots][..len]))
  }

  /** Slots of the declared size. */
  predicate Sized(g: Config, mem: seq<seq<byte>>) { |mem| == g.shape.slots && forall i :: 0 <= i < |mem| ==> |mem[i]| >= g.shape.chunk }

  /** A transfer of known length accepts one frame only as chunk `k`: its place, its length, and the sum of what the slot holds. */
  lemma ExactChunk(g: Config, mem: seq<seq<byte>>, f: Frame, k: nat, offset: nat)
    requires Opened(g) && g.mode.Exact? && Sized(g, mem) && k < Chunks(g.shape)
    ensures 0 < End(g.shape, k) - Start(g.shape, k) <= g.shape.chunk && k % g.shape.slots < |mem|
    ensures ChunkOk(g, mem, f, k, offset) <==> f == Due(g, mem, k, Start(g.shape, k), End(g.shape, k) - Start(g.shape, k))
  {
    ChunksTile(g.shape, k);
    hide ChunkMeta, Start, End, Chunks;
  }

  /** A transfer of open length accepts, as chunk `k`, the frames that continue at `offset`, stay below the ceiling, name the slot and
      generation that are due, and carry the sum of that many bytes of the slot. */
  lemma OpenChunk(g: Config, mem: seq<seq<byte>>, f: Frame, k: nat, offset: nat)
    requires Opened(g) && g.mode.ToEnd? && Sized(g, mem)
    ensures k % g.shape.slots < |mem|
    ensures ChunkOk(g, mem, f, k, offset) <==>
      && 0 < f.len <= g.shape.chunk && offset + f.len <= g.shape.total && k / g.shape.slots < U32_MAX
      && f == Due(g, mem, k, offset, f.len)
  {
  }

  /** With the chunk in its slot, the honest frame is the only one of its length that is accepted. */
  lemma HonestChunk(g: Config, mem: seq<seq<byte>>, f: Frame, k: nat)
    requires Opened(g) && k < N(g) && |mem| == g.shape.slots && Holds(g, mem, k) && Pos(g, k + 1) <= |g.source|
    requires g.mode.Exact? || f.len == Pos(g, k + 1) - Pos(g, k)
    ensures ChunkOk(g, mem, f, k, Pos(g, k)) <==> f == DataFrame(g, k)
  {
    HeldBytes(g, mem, k);
    ChunkFrameOk(g, mem, k);
    hide Opened, Pos, N, SlotBytes, Piece, ChunkMeta, Holds;
    PosStep(g, k);
    if g.mode.Exact? { ExactMeta(g, k); }
  }

  /** A release is accepted for the chunk that is due and no other; the sum it carries back is not looked at, nor, in a transfer of open
      length, where the chunk lay. */
  lemma ReleaseExactly(g: Config, f: Frame, k: nat)
    requires Opened(g)
    ensures g.mode.Exact? && k < Chunks(g.shape) ==>
      0 < End(g.shape, k) - Start(g.shape, k)
      && (ReleaseOk(g, f, k) <==>
          f == Frame(Released, g.flags, g.transfer, Start(g.shape, k), k % g.shape.slots, k / g.shape.slots + 1, End(g.shape, k) - Start(g.shape, k), f.checksum))
    ensures g.mode.ToEnd? ==>
      (ReleaseOk(g, f, k) <==>
        && f == Frame(Released, g.flags, g.transfer, f.offset, k % g.shape.slots, k / g.shape.slots + 1, f.len, f.checksum)
        && 0 < f.len <= g.shape.chunk && f.offset + f.len <= g.shape.total && k / g.shape.slots < U32_MAX)
  {
    if k < Chunks(g.shape) {
      ChunksTile(g.shape, k);
      hide ChunkMeta, Start, End, Chunks;
    }
  }

  /** One COMPLETE frame is accepted: the one that states the length and the aggregate sum. */
  lemma CompleteExactly(g: Config, f: Frame, total: nat, aggregate: nat)
    requires Opened(g) && total <= g.shape.total && (g.mode.Exact? ==> total == g.shape.total)
    ensures CompleteOk(g, f, total, aggregate) <==> f == Frame(Complete, g.flags, g.transfer, total, 0, 0, 0, aggregate)
  {
  }

  // ---- forged frames ---------------------------------------------------------------------------------

  /** The consumer looks at the frame in front of it. */
  function Look(g: Config, s: State): State
    requires Opened(g)
  {
    Step(g, Step(g, s, C), C)
  }

  /** In every run: whatever stands in front of a consumer that waits for the next chunk, with that chunk in its slot, is accepted only if it is
      the honest frame or, in a transfer of open length, one of another length with the sum of that many bytes; anything else ends the
      transfer with nothing more written. */
  lemma ForgedRefused(g: Config, mem: seq<seq<byte>>, es: seq<Event>, f: Frame, rest: seq<Frame>)
    requires Opened(g) && |mem| == g.shape.slots
    requires var s := Run(g, mem, es);
      s.c.pc.Wait? && s.c.fail.None? && s.p.released <= s.c.got < s.p.sent && (g.mode.Exact? || f.kind != Complete)
    ensures var s := Run(g, mem, es); s.c.got < N(g)
    ensures var s := Run(g, mem, es); var t := Look(g, s.(data := [f] + rest));
      && t.c.out == s.c.out
      && (t.c.fail == None || t.c.fail == Some(BadFrame))
      && (f == DataFrame(g, s.c.got) ==> t.c.fail.None? && t.c.pc == Write(f))
      && (g.mode.Exact? || f.len == DataFrame(g, s.c.got).len ==> (t.c.fail.None? <==> f == DataFrame(g, s.c.got)))
  {
    hide Run, NextMeta, Slack, RingInv, Aggregate;
    RunInv(g, mem, es);
    var s := Run(g, mem, es);
    var k := s.c.got;
    assert Holds(g, s.mem, k);
    PosMono(g, k + 1, s.p.sent);
    HonestChunk(g, s.mem, if f.len == DataFrame(g, k).len then f else if g.mode.Exact? then f else DataFrame(g, k), k);
    ChunkFrameOk(g, s.mem, k);
    assert s.c.total == Pos(g, k);
    assert g.mode.Exact? ==> k < Chunks(g.shape) by { ActualValid(g); }
    hide Inv, Pos, N, ChunkOk, DataFrame, Chunks, Opened;
    var u := s.(data := [f] + rest);
    assert u.data[1..] == rest;
    assert Step(g, u, C) == s.(data := rest, c := s.c.(pc := Check(f)));
  }
}
