/** What every interleaving of the stream protocol keeps. */
module StreamSafety {
  import opened Bytes
  import opened Wrappers
  import opened Frames
  import opened Shape
  import opened Stream
  import Arith

  // ---- the frames an honest transfer exchanges -----------------------------------

  /** How many bytes the transfer moves. */
  function Length(g: Config): nat {
    if g.mode.Exact? || g.shape.total < |g.source| then g.shape.total else |g.source|
  }

  /** The shape the chunks of this transfer follow. */
  function Actual(g: Config): StreamShape
  {
    g.shape.(total := Length(g))
  }

  function N(g: Config): nat
    requires Opened(g)
  {
    Chunks(Actual(g))
  }

  /** The stream position before chunk `k`. */
  function Pos(g: Config, k: nat): nat
    requires Opened(g)
  {
    if k < N(g) then Start(g.shape, k) else Length(g)
  }

  lemma ActualValid(g: Config)
    requires Opened(g)
    ensures Valid(Actual(g)) && N(g) <= Chunks(g.shape)
  {
    DivCeilMono(Length(g), g.shape.total, g.shape.chunk);
    DivCeilMono(N(g), Chunks(g.shape), g.shape.slots);
  }

  /** Positions advance by one chunk at a time and reach the end exactly after the last. */
  lemma PosStep(g: Config, k: nat)
    requires Opened(g) && k < N(g)
    ensures k < TWO64 && g.shape.slots > 0 && g.shape.chunk > 0
    ensures Pos(g, k) < Pos(g, k + 1) <= Length(g) <= g.shape.total
    ensures Pos(g, k + 1) - Pos(g, k) == if Length(g) - Pos(g, k) < g.shape.chunk then Length(g) - Pos(g, k) else g.shape.chunk
    ensures k / g.shape.slots + 1 <= U32_MAX && k % g.shape.slots < g.shape.slots <= U32_MAX
    ensures Pos(g, k + 1) - Pos(g, k) <= g.shape.chunk <= U32_MAX
  {
    ActualValid(g);
    EndBounds(Actual(g), k);
    assert k / g.shape.slots + 1 <= U32_MAX by { GenerationFits(N(g), g.shape.slots, k); }
    assert Start(Actual(g), k) == Start(g.shape, k) && Start(Actual(g), k + 1) == Start(g.shape, k + 1);
  }

  function Clip(g: Config, n: nat): nat { if n < |g.source| then n else |g.source| }

  /** The bytes of chunk `k`. */
  function Piece(g: Config, k: nat): seq<byte>
    requires Opened(g) && k < N(g)
  {
    PosStep(g, k);
    g.source[Clip(g, Pos(g, k))..Clip(g, Pos(g, k + 1))]
  }

  /** What building the frame of chunk `k` needs to know. */
  lemma Ahead(g: Config, k: nat)
    requires Opened(g) && k < N(g)
    ensures g.shape.slots > 0 && Pos(g, k) < Pos(g, k + 1)
  {
    PosStep(g, k);
  }

  /** The DATA frame of chunk `k`. */
  function DataFrame(g: Config, k: nat): Frame
    requires Opened(g) && k < N(g)
  {
    Ahead(g, k);
    Frame(Data, g.flags, g.transfer, Pos(g, k), k % g.shape.slots, k / g.shape.slots + 1,
          Pos(g, k + 1) - Pos(g, k), g.sum(Piece(g, k)))
  }

  function ReleaseFrame(g: Config, k: nat): Frame
    requires Opened(g) && k < N(g)
  {
    DataFrame(g, k).(kind := Released)
  }

  /** The aggregate checksum after `k` chunks. */
  function Aggregate(g: Config, k: nat): nat
    requires Opened(g) && k <= N(g)
  {
    if k == 0 then 0 else g.fold(Aggregate(g, k - 1), DataFrame(g, k - 1))
  }

  function LastFrame(g: Config): Frame
    requires Opened(g)
  {
    EndFrame(g, Length(g), Aggregate(g, N(g)))
  }

  function DataFrames(g: Config, a: nat, b: nat): (q: seq<Frame>)
    requires Opened(g) && a <= b <= N(g)
    ensures |q| == b - a
    decreases b
  {
    if a == b then [] else DataFrames(g, a, b - 1) + [DataFrame(g, b - 1)]
  }

  function ReleaseFrames(g: Config, a: nat, b: nat): (q: seq<Frame>)
    requires Opened(g) && a <= b <= N(g)
    ensures |q| == b - a
    decreases b
  {
    if a == b then [] else ReleaseFrames(g, a, b - 1) + [ReleaseFrame(g, b - 1)]
  }

  lemma {:induction false} DataHead(g: Config, a: nat, b: nat)
    requires Opened(g) && a < b <= N(g)
    ensures DataFrames(g, a, b)[0] == DataFrame(g, a) && DataFrames(g, a, b)[1..] == DataFrames(g, a + 1, b)
    decreases b
  {
    if a < b - 1 { DataHead(g, a, b - 1); }
  }

  lemma {:induction false} ReleaseHead(g: Config, a: nat, b: nat)
    requires Opened(g) && a < b <= N(g)
    ensures ReleaseFrames(g, a, b)[0] == ReleaseFrame(g, a) && ReleaseFrames(g, a, b)[1..] == ReleaseFrames(g, a + 1, b)
    decreases b
  {
    if a < b - 1 { ReleaseHead(g, a, b - 1); }
  }

  // ---- inductive invariant --------------------------------------------------------

  predicate EndPushed(s: State) { s.p.pc.AwaitEnd? || s.p.pc.Sent? }
  predicate EndTaken(s: State) { s.c.pc.Finish? || s.c.pc.Reply? || s.c.pc.Received? }

  /** Chunks whose bytes have been read from the source. */
  function Read(s: State): nat { s.p.sent + if s.p.pc.Push? then 1 else 0 }
  /** DATA frames the consumer has popped. */
  function Popped(s: State): nat { s.c.got + if s.c.pc.Check? || s.c.pc.Write? || s.c.pc.Release? then 1 else 0 }
  /** Chunks the consumer has written out. */
  function Written(s: State): nat { s.c.got + if s.c.pc.Release? then 1 else 0 }

  ghost predicate Counts(g: Config, s: State)
    requires Opened(g)
  {
    var slots := g.shape.slots;
    && s.p.released <= s.c.got <= Popped(s) <= s.p.sent <= s.p.released + slots
    && Read(s) <= N(g)
    && (s.p.pc.Top? || s.p.pc.AwaitSlot? ==> s.p.released == if s.p.sent >= slots then s.p.sent - slots else 0)
    && (s.p.pc.AwaitSlot? ==> s.p.sent >= slots)
    && (s.p.pc.Fill? || s.p.pc.Filled? || s.p.pc.Push? ==>
          s.p.released == if s.p.sent + 1 >= slots then s.p.sent + 1 - slots else 0)
    && (s.p.pc.PushEnd? || EndPushed(s) ==> s.p.released == s.p.sent)
    && (s.p.pc.Drain? || s.p.pc.PushEnd? || EndPushed(s) ==> s.p.sent == N(g))
    && (EndTaken(s) ==> EndPushed(s) && s.c.got == N(g))
    && (s.p.pc.Sent? ==> s.c.pc.Received?)
  }

  ghost predicate ProducerInv(g: Config, s: State)
    requires Opened(g) && Read(s) <= N(g)
  {
    var p := s.p;
    && p.read == Pos(g, Read(s)) <= |g.source|
    && p.aggregate == Aggregate(g, Read(s))
    && (p.pc.Push? ==> p.pc.f == DataFrame(g, p.sent))
    && (p.pc.Filled? ==> NextMeta(g, p.sent, p.read).Ok?)
    && (p.pc.AwaitSlot? || p.pc.Fill? || p.pc.Filled? ==>
          if g.mode.Exact? then p.sent < N(g) else p.read < g.shape.total)
    && (p.pc.Drain? || p.pc.PushEnd? || EndPushed(s) ==> Slack(g) && (g.mode.ToEnd? ==> |g.source| <= g.shape.total))
    && (p.fail.Some? ==>
          || p.fail.value.Aborted?
          || (p.fail.value.ShortSource? && g.mode.Exact? && |g.source| < g.shape.total)
          || (p.fail.value.Excess? && g.mode.ToEnd? && |g.source| > g.shape.total)
          || (p.fail.value.Exhausted? && !Slack(g)))
  }

  ghost predicate ConsumerInv(g: Config, s: State)
    requires Opened(g) && Written(s) <= N(g)
  {
    var c := s.c;
    && Pos(g, Written(s)) <= |g.source|
    && c.out == g.source[..Pos(g, Written(s))]
    && c.total == Pos(g, Written(s))
    && c.aggregate == Aggregate(g, Written(s))
    && (c.pc.Check? || c.pc.Write? || c.pc.Release? ==> c.got < N(g) && c.pc.f == DataFrame(g, c.got))
    && (c.pc.Finish? || c.pc.Reply? ==> c.pc.f == LastFrame(g))
    && (c.fail.Some? ==> c.fail.value.Aborted?)
  }

  ghost predicate RingInv(g: Config, s: State)
    requires Opened(g) && Counts(g, s)
  {
    && s.data == DataFrames(g, Popped(s), s.p.sent) + (if EndPushed(s) && !EndTaken(s) then [LastFrame(g)] else [])
    && s.releases == ReleaseFrames(g, s.p.released, s.c.got)
                     + (if s.c.pc.Received? && !s.p.pc.Sent? then [LastFrame(g)] else [])
  }

  /** The slot of chunk `k` holds its bytes. */
  ghost predicate Holds(g: Config, mem: seq<seq<byte>>, k: nat)
    requires Opened(g) && k < N(g) && |mem| == g.shape.slots
  {
    Piece(g, k) <= mem[k % g.shape.slots]
  }

  /** No slot is reused before its release has come back. */
  ghost predicate MemInv(g: Config, s: State)
    requires Opened(g) && Read(s) <= N(g)
  {
    && |s.mem| == g.shape.slots
    && forall k :: s.p.released <= k < Read(s) ==> Holds(g, s.mem, k)
  }

  ghost predicate Inv(g: Config, s: State)
    requires Opened(g)
  {
    Counts(g, s) && ProducerInv(g, s) && ConsumerInv(g, s) && RingInv(g, s) && MemInv(g, s)
  }

  /** The generation computed before the read that finds the end of a `ToEnd` source fits. */
  predicate Slack(g: Config)
    requires Opened(g)
  {
    g.mode.ToEnd? && |g.source| < g.shape.total ==> N(g) / g.shape.slots + 1 <= U32_MAX
  }

  // ---- facts about the honest frames ----------------------------------------------

  lemma {:induction false} PosMono(g: Config, j: nat, k: nat)
    requires Opened(g) && j <= k <= N(g)
    ensures Pos(g, j) <= Pos(g, k)
    ensures j < k ==> Pos(g, j) < Pos(g, k)
    decreases k - j
  {
    if j < k {
      PosStep(g, j);
      PosMono(g, j + 1, k);
    }
  }

  /** Before the last chunk the position is below the length. */
  lemma PosEnd(g: Config, k: nat)
    requires Opened(g) && k <= N(g)
    ensures Pos(g, k) <= Length(g) <= g.shape.total
    ensures Pos(g, k) == Length(g) <==> k == N(g)
  {
    PosMono(g, k, N(g));
  }

  /** In exact mode `chunk_meta` computes the honest frame's fields. */
  lemma ExactMeta(g: Config, k: nat)
    requires Opened(g) && g.mode.Exact? && k < N(g)
    ensures var m := ChunkMeta(g.shape, k);
      && m.Ok? && m.value.offset == Pos(g, k) && m.value.len == Pos(g, k + 1) - Pos(g, k)
      && m.value.slot == k % g.shape.slots && m.value.generation == k / g.shape.slots + 1
  {
    assert Actual(g) == g.shape;
    ChunksTile(g.shape, k);
  }

  lemma ReleaseFrameOk(g: Config, k: nat)
    requires Opened(g) && k < N(g)
    ensures ReleaseOk(g, ReleaseFrame(g, k), k)
  {
    PosStep(g, k);
    if g.mode.Exact? { ExactMeta(g, k); }
  }

  /** The consumer reads the chunk's bytes out of its slot. */
  lemma HeldBytes(g: Config, mem: seq<seq<byte>>, k: nat)
    requires Opened(g) && k < N(g) && |mem| == g.shape.slots && Holds(g, mem, k) && Pos(g, k + 1) <= |g.source|
    ensures Pos(g, k) <= Pos(g, k + 1)
    ensures SlotBytes(g, mem, k % g.shape.slots, Pos(g, k + 1) - Pos(g, k)) == Ok(Piece(g, k))
    ensures g.source[..Pos(g, k)] + Piece(g, k) == g.source[..Pos(g, k + 1)]
  {
    hide Opened, Pos, N;
    PosStep(g, k);
    var slot, len := k % g.shape.slots, Pos(g, k + 1) - Pos(g, k);
    assert Piece(g, k) == g.source[Pos(g, k)..Pos(g, k + 1)];
    assert mem[slot][..len] == Piece(g, k);
  }

  lemma ChunkFrameOk(g: Config, mem: seq<seq<byte>>, k: nat)
    requires Opened(g) && k < N(g) && |mem| == g.shape.slots && Holds(g, mem, k) && Pos(g, k + 1) <= |g.source|
    ensures ChunkOk(g, mem, DataFrame(g, k), k, Pos(g, k))
  {
    HeldBytes(g, mem, k);
    hide Opened, Pos, N, SlotBytes, Piece, ChunkMeta, Holds;
    PosStep(g, k);
    if g.mode.Exact? { ExactMeta(g, k); }
  }

  lemma LastFrameOk(g: Config)
    requires Opened(g)
    ensures CompleteOk(g, LastFrame(g), Length(g), Aggregate(g, N(g)))
  {
  }

  // ---- frames: what a step of one endpoint leaves alone ------------------------------

  lemma ProducerOnly(g: Config, s: State, t: State)
    requires Opened(g) && Inv(g, s)
    requires t == s.(p := t.p, mem := t.mem)
    requires t.p.sent == s.p.sent && t.p.released == s.p.released && EndPushed(t) == EndPushed(s) && t.p.pc.Sent? == s.p.pc.Sent?
    requires Counts(g, t) && ProducerInv(g, t) && MemInv(g, t)
    ensures Inv(g, t)
  {
    hide Opened, Pos, N, ProducerInv, MemInv, Aggregate, DataFrames, ReleaseFrames, DataFrame;
  }

  lemma ConsumerOnly(g: Config, s: State, t: State)
    requires Opened(g) && Inv(g, s)
    requires t == s.(c := t.c, data := t.data, releases := t.releases)
    requires Counts(g, t) && ConsumerInv(g, t) && RingInv(g, t)
    ensures Inv(g, t)
  {
    hide Opened, Pos, N, Counts, ConsumerInv, RingInv, Aggregate, DataFrame, NextMeta, Slack, Holds;
  }

  // ---- producer steps -------------------------------------------------------------

  lemma TopInv(g: Config, s: State)
    requires Opened(g) && Inv(g, s) && s.p.pc.Top? && s.p.fail.None?
    ensures Inv(g, TopStep(g, s))
  {
    hide Opened, Pos, Chunks, Aggregate, DataFrames, ReleaseFrames, DataFrame;
    PosEnd(g, s.p.sent);
    if g.mode.Exact? { assert Actual(g) == g.shape; }
  }

  lemma PopReleaseInv(g: Config, s: State)
    requires Opened(g) && Inv(g, s) && (s.p.pc.AwaitSlot? || (s.p.pc.Drain? && s.p.released < s.p.sent)) && s.p.fail.None?
    ensures Inv(g, PopRelease(g, s, if s.p.pc.Drain? then Drain else Fill))
  {
    hide Opened, Pos, N, Aggregate, DataFrames, ReleaseFrames, DataFrame, ReleaseOk, Holds;
    if s.releases != [] {
      var r := s.p.released;
      ReleaseHead(g, r, s.c.got);
      ReleaseFrameOk(g, r);
    }
  }

  /** The slot about to be filled belongs to no chunk still in custody. */
  lemma FreeSlot(g: Config, s: State, k: nat)
    requires Opened(g) && Counts(g, s) && (s.p.pc.Fill? || s.p.pc.Filled?)
    requires s.p.released <= k < s.p.sent
    ensures k % g.shape.slots != s.p.sent % g.shape.slots
  {
    Arith.DistinctSlots(k, s.p.sent, g.shape.slots);
  }

  lemma FillMeta(g: Config, s: State)
    requires Opened(g) && Inv(g, s) && (s.p.pc.Fill? || s.p.pc.Filled?)
    ensures NextMeta(g, s.p.sent, s.p.read).Err? ==> !Slack(g)
    ensures NextMeta(g, s.p.sent, s.p.read).Ok? && s.p.sent == N(g) ==> Slack(g)
    ensures NextMeta(g, s.p.sent, s.p.read).Ok? ==>
      var m := NextMeta(g, s.p.sent, s.p.read).value;
      && m.offset == s.p.read && m.slot == s.p.sent % g.shape.slots < g.shape.slots
      && m.generation == s.p.sent / g.shape.slots + 1
      && (g.mode.Exact? ==> m.len == Pos(g, s.p.sent + 1) - Pos(g, s.p.sent))
      && (g.mode.ToEnd? ==> m.len == if g.shape.total - s.p.read < g.shape.chunk then g.shape.total - s.p.read else g.shape.chunk)
  {
    PosEnd(g, s.p.sent);
    if s.p.sent < N(g) { PosStep(g, s.p.sent); }
    if g.mode.Exact? { ExactMeta(g, s.p.sent); }
  }

  /** Overwriting the free slot disturbs no chunk in custody. */
  lemma CustodyKept(g: Config, s: State, x: seq<byte>)
    requires Opened(g) && Counts(g, s) && MemInv(g, s) && (s.p.pc.Fill? || s.p.pc.Filled?)
    requires s.p.sent % g.shape.slots < |s.mem|
    ensures var mem := s.mem[s.p.sent % g.shape.slots := x];
      forall k :: s.p.released <= k < s.p.sent ==> Holds(g, mem, k)
  {
    var mem := s.mem[s.p.sent % g.shape.slots := x];
    forall k | s.p.released <= k < s.p.sent ensures Holds(g, mem, k) {
      hide Opened, Pos, N, Piece;
      assert Holds(g, s.mem, k);
      FreeSlot(g, s, k);
    }
  }

  lemma FillInv(g: Config, s: State, junk: seq<byte>)
    requires Opened(g) && Inv(g, s) && s.p.pc.Fill? && s.p.fail.None?
    ensures Inv(g, FillStep(g, s, junk))
  {
    hide Opened, Pos, N, Aggregate, DataFrame, Slack, Holds, NextMeta, RingInv, ConsumerInv;
    FillMeta(g, s);
    var t := FillStep(g, s, junk);
    if NextMeta(g, s.p.sent, s.p.read).Ok? { CustodyKept(g, s, junk); }
    ProducerOnly(g, s, t);
  }

  /** Before the last chunk, a read of the planned length yields the chunk, or the source is short. */
  lemma TakenNext(g: Config, k: nat, len: nat)
    requires Opened(g) && k < N(g) && Pos(g, k) <= |g.source|
    requires g.mode.Exact? ==> len == Pos(g, k + 1) - Pos(g, k)
    requires g.mode.ToEnd? ==> len == if g.shape.total - Pos(g, k) < g.shape.chunk then g.shape.total - Pos(g, k) else g.shape.chunk
    ensures Pos(g, k) <= Pos(g, k + 1)
    ensures var bytes := TakeBytes(g, Pos(g, k), len);
      && (bytes.Err? ==> g.mode.Exact? && |g.source| < g.shape.total)
      && (bytes.Ok? ==> Pos(g, k + 1) <= |g.source| && bytes.value == Piece(g, k) && |bytes.value| == Pos(g, k + 1) - Pos(g, k) > 0)
  {
    PosStep(g, k);
    hide Opened, Pos, N;
  }

  /** What is read into the slot is the next piece of the source, or the source is short or at its end. */
  lemma TakenPiece(g: Config, s: State)
    requires Opened(g) && Inv(g, s) && s.p.pc.Filled? && NextMeta(g, s.p.sent, s.p.read).Ok?
    ensures var bytes := TakeBytes(g, s.p.read, NextMeta(g, s.p.sent, s.p.read).value.len);
      && (bytes.Err? ==> g.mode.Exact? && |g.source| < g.shape.total)
      && (bytes.Ok? && bytes.value == [] ==> g.mode.ToEnd? && s.p.sent == N(g) && |g.source| <= g.shape.total)
      && (bytes.Ok? && bytes.value != [] ==>
            s.p.sent < N(g) && bytes.value == Piece(g, s.p.sent) && Pos(g, s.p.sent + 1) <= |g.source|
            && |bytes.value| == Pos(g, s.p.sent + 1) - Pos(g, s.p.sent))
  {
    hide Opened, Pos, N, NextMeta, MemInv, RingInv, ConsumerInv, Aggregate, DataFrame, Slack;
    FillMeta(g, s);
    PosEnd(g, s.p.sent);
    var len := NextMeta(g, s.p.sent, s.p.read).value.len;
    if s.p.sent < N(g) {
      PosStep(g, s.p.sent);
      hide Counts;
      TakenNext(g, s.p.sent, len);
    } else {
      hide Counts;
    }
  }

  lemma FilledFrame(g: Config, s: State, junk: seq<byte>)
    requires Opened(g) && Inv(g, s) && s.p.pc.Filled? && s.p.fail.None? && NextMeta(g, s.p.sent, s.p.read).Ok?
    requires TakeBytes(g, s.p.read, NextMeta(g, s.p.sent, s.p.read).value.len).Ok?
    requires TakeBytes(g, s.p.read, NextMeta(g, s.p.sent, s.p.read).value.len).value != []
    ensures var t := FilledStep(g, s, junk);
      && s.p.sent < N(g)
      && t == s.(mem := s.mem[s.p.sent % g.shape.slots := Piece(g, s.p.sent) + junk],
                 p := s.p.(pc := Push(DataFrame(g, s.p.sent)), read := Pos(g, s.p.sent + 1),
                           aggregate := Aggregate(g, s.p.sent + 1)))
      && Pos(g, s.p.sent + 1) <= |g.source|
  {
    hide Opened, Pos, N, DataFrames, ReleaseFrames, NextMeta, Slack, RingInv, ConsumerInv, TakeBytes, Piece;
    FillMeta(g, s);
    TakenPiece(g, s);
    PosStep(g, s.p.sent);
  }

  lemma FilledPush(g: Config, s: State, junk: seq<byte>)
    requires Opened(g) && Inv(g, s) && s.p.pc.Filled? && s.p.fail.None? && NextMeta(g, s.p.sent, s.p.read).Ok?
    requires TakeBytes(g, s.p.read, NextMeta(g, s.p.sent, s.p.read).value.len).Ok?
    requires TakeBytes(g, s.p.read, NextMeta(g, s.p.sent, s.p.read).value.len).value != []
    ensures Inv(g, FilledStep(g, s, junk))
  {
    hide Opened, Pos, NextMeta, Slack, TakeBytes, Aggregate, DataFrame, Piece, FilledStep, RingInv, ConsumerInv;
    FilledFrame(g, s, junk);
    var t := FilledStep(g, s, junk);
    var x := Piece(g, s.p.sent) + junk;
    CustodyKept(g, s, x);
    hide N;
    assert MemInv(g, t) by { assert Holds(g, t.mem, s.p.sent); }
    ProducerOnly(g, s, t);
  }

  lemma FilledInv(g: Config, s: State, junk: seq<byte>)
    requires Opened(g) && Inv(g, s) && s.p.pc.Filled? && s.p.fail.None?
    ensures Inv(g, FilledStep(g, s, junk))
  {
    hide Opened, Pos, N, NextMeta, Slack, TakeBytes, Aggregate, DataFrame, Holds, RingInv, ConsumerInv;
    FillMeta(g, s);
    TakenPiece(g, s);
    var t := FilledStep(g, s, junk);
    var bytes := TakeBytes(g, s.p.read, NextMeta(g, s.p.sent, s.p.read).value.len);
    if bytes.Ok? && bytes.value != [] {
      FilledPush(g, s, junk);
    } else {
      ProducerOnly(g, s, t);
    }
  }

  lemma PushInv(g: Config, s: State)
    requires Opened(g) && Inv(g, s) && s.p.pc.Push? && s.p.fail.None?
    ensures Inv(g, ProducerStep(g, s, []))
  {
    hide Opened, Pos, N, ReleaseFrames, Aggregate, DataFrame, Piece, NextMeta, Slack;
    var t := ProducerStep(g, s, []);
    if t != s {
      assert Counts(g, t) && ConsumerInv(g, t) && MemInv(g, t);
      assert t.data == DataFrames(g, Popped(t), t.p.sent);
    }
  }

  lemma EndInv(g: Config, s: State)
    requires Opened(g) && Inv(g, s) && s.p.fail.None?
    requires s.p.pc.PushEnd? || s.p.pc.AwaitEnd? || (s.p.pc.Drain? && s.p.released == s.p.sent)
    ensures Inv(g, ProducerStep(g, s, []))
  {
    PosEnd(g, s.p.sent);
    LastFrameOk(g);
    hide Opened, Pos, N, Aggregate, DataFrame, Piece, NextMeta, Slack, CompleteOk, EndFrame;
    var t := ProducerStep(g, s, []);
    if t != s {
      assert Counts(g, t) && ConsumerInv(g, t) && MemInv(g, t);
    }
  }

  lemma ProducerInvKept(g: Config, s: State, junk: seq<byte>)
    requires Opened(g) && Inv(g, s) && s.p.fail.None?
    ensures Inv(g, ProducerStep(g, s, junk))
  {
    hide Inv, Opened;
    match s.p.pc {
      case Top => TopInv(g, s);
      case AwaitSlot => PopReleaseInv(g, s);
      case Fill => FillInv(g, s, junk);
      case Filled => FilledInv(g, s, junk);
      case Push(_) => PushInv(g, s);
      case Drain => DrainInv(g, s);
      case PushEnd => EndInv(g, s);
      case AwaitEnd => EndInv(g, s);
      case Sent =>
    }
  }

  lemma DrainInv(g: Config, s: State)
    requires Opened(g) && Inv(g, s) && s.p.fail.None? && s.p.pc.Drain?
    ensures Inv(g, ProducerStep(g, s, []))
  {
    if s.p.released < s.p.sent { PopReleaseInv(g, s); } else { EndInv(g, s); }
  }

  // ---- consumer steps -------------------------------------------------------------

  lemma WaitData(g: Config, s: State)
    requires Opened(g) && Inv(g, s) && s.c.fail.None? && s.c.pc.Wait? && s.c.got < s.p.sent
    requires DataFrames(g, s.c.got, s.p.sent)[0] == DataFrame(g, s.c.got)
    requires DataFrames(g, s.c.got, s.p.sent)[1..] == DataFrames(g, s.c.got + 1, s.p.sent)
    ensures Inv(g, ConsumerStep(g, s))
  {
    hide Opened, Pos, N, Aggregate, Piece, DataFrames, ReleaseFrames, ProducerInv, MemInv;
    ActualValid(g);
    ConsumerOnly(g, s, ConsumerStep(g, s));
  }

  lemma WaitInv(g: Config, s: State)
    requires Opened(g) && Inv(g, s) && s.c.fail.None? && s.c.pc.Wait?
    ensures Inv(g, ConsumerStep(g, s))
  {
    hide Opened, Pos, Chunks, Aggregate, ReleaseFrames, ProducerInv, MemInv, DataFrame;
    if s.c.got < s.p.sent {
      DataHead(g, s.c.got, s.p.sent);
      WaitData(g, s);
    } else if s.data != [] {
      if g.mode.Exact? { assert Actual(g) == g.shape; }
      ConsumerOnly(g, s, ConsumerStep(g, s));
    }
  }

  lemma CheckInv(g: Config, s: State)
    requires Opened(g) && Inv(g, s) && s.c.fail.None? && s.c.pc.Check?
    ensures Inv(g, ConsumerStep(g, s))
  {
    hide Opened, Pos, N, Aggregate, DataFrames, ReleaseFrames, DataFrame, ChunkOk, ProducerInv, MemInv;
    Available(g, s);
    ChunkFrameOk(g, s.mem, s.c.got);
    ConsumerOnly(g, s, ConsumerStep(g, s));
  }

  /** The chunk the consumer holds is in its slot and was fully read from the source. */
  lemma Available(g: Config, s: State)
    requires Opened(g) && Inv(g, s) && s.c.got < s.p.sent
    ensures |s.mem| == g.shape.slots
    ensures Holds(g, s.mem, s.c.got) && Pos(g, s.c.got + 1) <= |g.source|
  {
    PosMono(g, s.c.got + 1, Read(s));
  }

  lemma WriteStep(g: Config, s: State)
    requires Opened(g) && Inv(g, s) && s.c.pc.Write?
    ensures s.c.got < N(g) && Pos(g, s.c.got) <= Pos(g, s.c.got + 1) <= |g.source|
    ensures ConsumerStep(g, s) == s.(c := s.c.(pc := Release(s.c.pc.f), total := Pos(g, s.c.got + 1),
                                     out := g.source[..Pos(g, s.c.got + 1)], aggregate := Aggregate(g, s.c.got + 1)))
  {
    hide Opened, Pos, N, Piece, DataFrames, ReleaseFrames, SlotBytes, ProducerInv, MemInv, RingInv;
    Available(g, s);
    HeldBytes(g, s.mem, s.c.got);
  }

  lemma WriteInv(g: Config, s: State)
    requires Opened(g) && Inv(g, s) && s.c.fail.None? && s.c.pc.Write?
    ensures Inv(g, ConsumerStep(g, s))
  {
    hide Opened, Pos, N, Aggregate, DataFrame, DataFrames, ReleaseFrames, ProducerInv, MemInv, ConsumerStep;
    WriteStep(g, s);
    ConsumerOnly(g, s, ConsumerStep(g, s));
  }

  lemma ReplyInv(g: Config, s: State)
    requires Opened(g) && Inv(g, s) && s.c.fail.None?
    requires s.c.pc.Release? || s.c.pc.Finish? || s.c.pc.Reply?
    ensures Inv(g, ConsumerStep(g, s))
  {
    hide Opened, Pos, N, Aggregate, DataFrame, DataFrames, CompleteOk, ProducerInv, MemInv;
    PosEnd(g, Written(s));
    LastFrameOk(g);
    var t := ConsumerStep(g, s);
    if t != s { ConsumerOnly(g, s, t); }
  }

  lemma ConsumerInvKept(g: Config, s: State)
    requires Opened(g) && Inv(g, s) && s.c.fail.None?
    ensures Inv(g, ConsumerStep(g, s))
  {
    hide Inv, Opened;
    match s.c.pc {
      case Wait => WaitInv(g, s);
      case Check(_) => CheckInv(g, s);
      case Write(_) => WriteInv(g, s);
      case Release(_) => ReplyInv(g, s);
      case Finish(_) => ReplyInv(g, s);
      case Reply(_) => ReplyInv(g, s);
      case Received =>
    }
  }

  lemma StepInv(g: Config, s: State, e: Event)
    requires Opened(g) && Inv(g, s)
    ensures Inv(g, Step(g, s, e))
  {
    match e {
      case P(junk) => if s.p.fail.None? { ProducerInvKept(g, s, junk); }
      case C => if s.c.fail.None? { ConsumerInvKept(g, s); }
      case AbortP => hide Opened, Pos, N, NextMeta, Slack; AbortInv(g, s, e);
      case AbortC => hide Opened, Pos, N, NextMeta, Slack; AbortInv(g, s, e);
    }
  }

  lemma AbortInv(g: Config, s: State, e: Event)
    requires Opened(g) && Inv(g, s) && (e.AbortP? || e.AbortC?)
    ensures Inv(g, Step(g, s, e))
  {
    hide Opened, Pos, N, NextMeta, Slack, Aggregate, DataFrames, ReleaseFrames, DataFrame, Holds;
    var t := Step(g, s, e);
    if e.AbortP? { ProducerOnly(g, s, t); } else { ConsumerOnly(g, s, t); }
  }

  lemma {:induction false} RunInv(g: Config, mem: seq<seq<byte>>, es: seq<Event>)
    requires Opened(g) && |mem| == g.shape.slots
    ensures Inv(g, Run(g, mem, es))
  {
    if es == [] {
      InitInv(g, mem);
    } else {
      RunInv(g, mem, es[..|es| - 1]);
      StepInv(g, Run(g, mem, es[..|es| - 1]), es[|es| - 1]);
    }
  }

  lemma InitInv(g: Config, mem: seq<seq<byte>>)
    requires Opened(g) && |mem| == g.shape.slots
    ensures Inv(g, Init(mem))
  {
    if N(g) > 0 { PosStep(g, 0); } else { PosEnd(g, 0); }
    assert Pos(g, 0) == 0;
  }

  // ---- what every run guarantees ----------------------------------------------------

  /** The transfer can succeed: the source has the exact length asked for, or it fits the
      ceiling and the generation counter does not run out before its end is seen. */
  predicate Transferable(g: Config)
    requires Opened(g)
  {
    if g.mode.Exact? then g.shape.total <= |g.source| else |g.source| <= g.shape.total && Slack(g)
  }

  /** At every moment the bytes written are a prefix of the source, and no frame between the
      two endpoints ever fails validation, however they are interleaved or aborted. */
  lemma PrefixDelivered(g: Config, mem: seq<seq<byte>>, es: seq<Event>)
    requires Opened(g) && |mem| == g.shape.slots
    ensures var s := Run(g, mem, es);
      s.c.out <= g.source && s.p.fail != Some(BadFrame) && s.c.fail != Some(BadFrame)
  {
    hide Opened, Pos, N, Slack;
    RunInv(g, mem, es);
  }

  /** A consumer that returns Ok has written the whole transfer, and the transfer was one that
      fits: a source above the ceiling never yields Ok. */
  lemma ReceivedAll(g: Config, mem: seq<seq<byte>>, es: seq<Event>)
    requires Opened(g) && |mem| == g.shape.slots && Run(g, mem, es).c.pc.Received?
    ensures var s := Run(g, mem, es);
      && Transferable(g)
      && s.c.out == g.source[..Length(g)] && s.c.total == Length(g) && s.c.got == N(g)
      && (g.mode.ToEnd? ==> s.c.out == g.source)
      && s.data == []
  {
    RunInv(g, mem, es);
    var s := Run(g, mem, es);
    PosEnd(g, s.c.got);
    hide Opened, Pos, N, Slack;
  }

  /** A producer that returns Ok has had everything received, and the transfer was one that fits: for a source
      that is too short, above the ceiling or out of generations it never returns Ok. */
  lemma SentMeansReceived(g: Config, mem: seq<seq<byte>>, es: seq<Event>)
    requires Opened(g) && |mem| == g.shape.slots && Run(g, mem, es).p.pc.Sent?
    ensures var s := Run(g, mem, es); s.c.pc.Received? && Transferable(g) && s.c.out == g.source[..Length(g)] && s.p.sent == N(g) && s.p.read == Length(g)
  {
    hide Opened, Pos, N, Slack, Step;
    RunInv(g, mem, es);
    var s := Run(g, mem, es);
    hide Run, Aggregate, DataFrame, ReleaseFrame, LastFrame;
    ReceivedAll(g, mem, es);
    PosEnd(g, Read(s));
  }

  /** If both return Ok their reports agree and both descriptor rings are empty again, which is
      the state the next transfer starts from. */
  lemma BothOk(g: Config, mem: seq<seq<byte>>, es: seq<Event>)
    requires Opened(g) && |mem| == g.shape.slots
    requires Run(g, mem, es).c.pc.Received? && Run(g, mem, es).p.pc.Sent?
    ensures var s := Run(g, mem, es);
      && s.data == [] && s.releases == [] && |s.mem| == g.shape.slots
      && s.p.aggregate == s.c.aggregate && s.p.read == s.c.total && s.p.sent == s.c.got
  {
    hide Opened, Pos, N, Slack, Step;
    RunInv(g, mem, es);
    hide Run, Aggregate, DataFrame, ReleaseFrame, LastFrame;
  }

  /** Custody: while the producer fills a slot, neither the chunk the consumer is reading nor
      any other unreleased chunk uses that slot. */
  lemma SlotCustody(g: Config, mem: seq<seq<byte>>, es: seq<Event>)
    requires Opened(g) && |mem| == g.shape.slots
    ensures var s := Run(g, mem, es);
      s.p.pc.Fill? || s.p.pc.Filled? ==>
        && (forall k :: s.p.released <= k < s.p.sent ==> k % g.shape.slots != s.p.sent % g.shape.slots)
        && (s.c.pc.Check? || s.c.pc.Write? || s.c.pc.Release? ==> s.c.pc.f.slot != s.p.sent % g.shape.slots)
  {
    RunInv(g, mem, es);
    var s := Run(g, mem, es);
    if s.p.pc.Fill? || s.p.pc.Filled? {
      forall k | s.p.released <= k < s.p.sent ensures k % g.shape.slots != s.p.sent % g.shape.slots {
        FreeSlot(g, s, k);
      }
    }
    hide Opened, Pos, N, Slack;
  }

  /** Neither ring ever holds more than `slots` frames, so a push never waits. */
  lemma PushNeverWaits(g: Config, mem: seq<seq<byte>>, es: seq<Event>)
    requires Opened(g) && |mem| == g.shape.slots
    ensures var s := Run(g, mem, es);
      |s.data| <= g.shape.slots < g.capacity && |s.releases| <= g.shape.slots
  {
    RunInv(g, mem, es);
    hide Pos, N, Slack, Valid, Chunks;
  }

  /** Every frame exchanged, DATA, RELEASED or COMPLETE, fits its encoding, so the ring round trip is lossless. */
  lemma FramesFit(g: Config, k: nat)
    requires Opened(g)
    requires forall b: seq<byte> :: g.sum(b) < TWO64
    requires forall a: nat, f: Frame :: g.fold(a, f) < TWO64
    ensures k < N(g) ==> Fits(DataFrame(g, k)) && Fits(ReleaseFrame(g, k))
    ensures Fits(LastFrame(g))
  {
    PosEnd(g, N(g));
    if k < N(g) {
      PosStep(g, k);
      PosEnd(g, k);
    }
    hide Opened, Pos;
    assert Aggregate(g, N(g)) < TWO64;
    hide N;
  }

  // ---- progress -----------------------------------------------------------------------

  predicate ProducerBlocked(g: Config, s: State) {
    match s.p.pc
    case AwaitSlot => s.releases == []
    case AwaitEnd => s.releases == []
    case Drain => s.p.released < s.p.sent && s.releases == []
    case Push(_) => |s.data| >= g.capacity
    case PushEnd => |s.data| >= g.capacity
    case Sent => true
    case _ => false
  }

  predicate ConsumerBlocked(g: Config, s: State) {
    match s.c.pc
    case Wait => s.data == []
    case Release(_) => |s.releases| >= g.capacity
    case Reply(_) => |s.releases| >= g.capacity
    case Received => true
    case _ => false
  }

  predicate Finished(s: State) { s.p.pc.Sent? && s.c.pc.Received? }

  /** The endpoints are never both stuck: until both are finished one of them can move. */
  lemma NoDeadlock(g: Config, mem: seq<seq<byte>>, es: seq<Event>)
    requires Opened(g) && |mem| == g.shape.slots && !Finished(Run(g, mem, es))
    ensures !ProducerBlocked(g, Run(g, mem, es)) || !ConsumerBlocked(g, Run(g, mem, es))
  {
    RunInv(g, mem, es);
    PushNeverWaits(g, mem, es);
    hide Opened, Pos, N, Slack;
  }

  /** Remaining steps. */
  function Work(g: Config, s: State): int
    requires Opened(g)
  {
    5 * (N(g) - s.p.sent) + 2 * (N(g) - s.p.released) + 5 * (N(g) - s.c.got)
    + (match s.p.pc
       case Top => 7 case AwaitSlot => 6 case Fill => 6 case Filled => 5 case Push(_) => 4
       case Drain => 3 case PushEnd => 2 case AwaitEnd => 1 case Sent => 0)
    + (match s.c.pc
       case Wait => 6 case Check(_) => 5 case Write(_) => 4 case Release(_) => 3
       case Finish(_) => 2 case Reply(_) => 1 case Received => 0)
  }

  /** The measure is never negative and is zero exactly when both endpoints are finished. */
  lemma WorkBounds(g: Config, s: State)
    requires Opened(g) && Inv(g, s)
    ensures Work(g, s) >= 0 && (Work(g, s) == 0 <==> Finished(s))
  {
    hide Opened, Pos, N, Slack, ProducerInv, ConsumerInv, RingInv, MemInv;
  }

  /** Every producer step that is neither blocked nor a failure brings the end nearer. */
  lemma ProducerProgress(g: Config, s: State, junk: seq<byte>)
    requires Opened(g) && Inv(g, s) && s.p.fail.None? && !ProducerBlocked(g, s)
    requires ProducerStep(g, s, junk).p.fail.None?
    ensures Work(g, ProducerStep(g, s, junk)) < Work(g, s)
  {
    hide Opened, Pos, N, Slack, Inv, ReleaseOk, CompleteOk, NextMeta, TakeBytes;
  }

  lemma ConsumerProgress(g: Config, s: State)
    requires Opened(g) && Inv(g, s) && s.c.fail.None? && !ConsumerBlocked(g, s)
    requires ConsumerStep(g, s).c.fail.None?
    ensures Work(g, ConsumerStep(g, s)) < Work(g, s)
  {
    hide Opened, Pos, N, Slack, Inv, ChunkOk, CompleteOk, SlotBytes;
  }

  predicate NoAborts(es: seq<Event>) { forall i :: 0 <= i < |es| ==> es[i].P? || es[i].C? }

  predicate Healthy(s: State) { s.p.fail.None? && s.c.fail.None? }

  lemma StepsDoNotAbort(g: Config, s: State, e: Event)
    requires Opened(g) && Healthy(s) && (e.P? || e.C?)
    ensures Step(g, s, e).p.fail != Some(Aborted) && Step(g, s, e).c.fail != Some(Aborted)
  {
    hide Opened, ChunkOk, CompleteOk, SlotBytes, ReleaseOk, NextMeta, TakeBytes, Chunks;
  }

  /** Between honest peers only an abort, a short source or one above the ceiling can fail. */
  lemma HealthyStep(g: Config, s: State, e: Event)
    requires Opened(g) && Inv(g, s) && Transferable(g) && Healthy(s) && (e.P? || e.C?)
    ensures Healthy(Step(g, s, e))
  {
    hide Opened, Step, Pos, N, NextMeta, Aggregate, DataFrame, RingInv, MemInv, Counts;
    StepInv(g, s, e);
    StepsDoNotAbort(g, s, e);
  }

  lemma {:induction false} HealthyRun(g: Config, mem: seq<seq<byte>>, es: seq<Event>)
    requires Opened(g) && |mem| == g.shape.slots && Transferable(g) && NoAborts(es)
    ensures Healthy(Run(g, mem, es))
  {
    if es != [] {
      HealthyRun(g, mem, es[..|es| - 1]);
      RunInv(g, mem, es[..|es| - 1]);
      HealthyStep(g, Run(g, mem, es[..|es| - 1]), es[|es| - 1]);
    }
  }

  lemma RunSnoc(g: Config, mem: seq<seq<byte>>, es: seq<Event>, e: Event)
    requires Opened(g)
    ensures Run(g, mem, es + [e]) == Step(g, Run(g, mem, es), e)
  {
    assert (es + [e])[..|es|] == es;
  }

  /** An effective step from an unfinished state, chosen so that the remaining work shrinks. */
  lemma NextStep(g: Config, mem: seq<seq<byte>>, es: seq<Event>) returns (e: Event)
    requires Opened(g) && |mem| == g.shape.slots && Transferable(g) && NoAborts(es)
    requires !Finished(Run(g, mem, es))
    ensures (e.P? || e.C?) && 0 <= Work(g, Run(g, mem, es + [e])) < Work(g, Run(g, mem, es))
  {
    var s := Run(g, mem, es);
    e := if ProducerBlocked(g, s) then C else P([]);
    hide Opened, Inv, N, Transferable, Work, Run, ProducerBlocked, ConsumerBlocked, ProducerStep, ConsumerStep;
    RunInv(g, mem, es);
    RunInv(g, mem, es + [e]);
    WorkBounds(g, Run(g, mem, es + [e]));
    HealthyRun(g, mem, es);
    HealthyRun(g, mem, es + [e]);
    NoDeadlock(g, mem, es);
    RunSnoc(g, mem, es, e);
    if e.P? { ProducerProgress(g, s, []); } else { ConsumerProgress(g, s); }
  }

  /** From any point of any run without aborts, a transferable stream can be completed within
      the remaining work. */
  lemma {:induction false} Completes(g: Config, mem: seq<seq<byte>>, es: seq<Event>) returns (more: seq<Event>)
    requires Opened(g) && |mem| == g.shape.slots && Transferable(g) && NoAborts(es)
    ensures NoAborts(more) && |more| <= Work(g, Run(g, mem, es)) && Finished(Run(g, mem, es + more))
    decreases Work(g, Run(g, mem, es))
  {
    hide Opened, Inv, N, Transferable, Work, Run;
    RunInv(g, mem, es);
    WorkBounds(g, Run(g, mem, es));
    if Finished(Run(g, mem, es)) {
      more := [];
      assert es + more == es;
    } else {
      var e := NextStep(g, mem, es);
      var rest := Completes(g, mem, es + [e]);
      more := [e] + rest;
      assert es + more == es + [e] + rest;
    }
  }

  lemma WhyFailed(g: Config, s: State, e: Event)
    requires Opened(g) && Inv(g, s) && Healthy(s) && (e.P? || e.C?) && !Healthy(Step(g, s, e))
    ensures var t := Step(g, s, e); t.p.fail.Some? && t.c.fail.None? && !t.p.fail.value.BadFrame?
    ensures var t := Step(g, s, e); t.p.fail == Some(ShortSource) ==> g.mode.Exact?
    ensures var t := Step(g, s, e); t.p.fail == Some(Excess) ==> g.mode.ToEnd? && |g.source| > g.shape.total
    ensures var t := Step(g, s, e); t.p.fail != Some(Aborted)
  {
    hide Opened, Step, Pos, N, NextMeta, Aggregate, DataFrame, RingInv, MemInv, Counts;
    StepInv(g, s, e);
    StepsDoNotAbort(g, s, e);
  }

  /** The other half of `Completes`: from any healthy point of a run without aborts, a stream that is not transferable
      can be driven within the remaining work to the producer's refusal, for one of the three reasons. */
  lemma {:induction false} Refused(g: Config, mem: seq<seq<byte>>, es: seq<Event>) returns (more: seq<Event>)
    requires Opened(g) && |mem| == g.shape.slots && !Transferable(g) && NoAborts(es) && Healthy(Run(g, mem, es))
    ensures NoAborts(more) && |more| <= Work(g, Run(g, mem, es)) + 1
    ensures var s := Run(g, mem, es + more);
      && s.c.fail.None? && (s.p.fail == Some(ShortSource) || s.p.fail == Some(Excess) || s.p.fail == Some(Exhausted))
      && (s.p.fail == Some(ShortSource) ==> g.mode.Exact?)
      && (s.p.fail == Some(Excess) ==> g.mode.ToEnd? && |g.source| > g.shape.total)
    decreases Work(g, Run(g, mem, es))
  {
    hide Opened, Inv, N, Transferable, Work, Run, ProducerBlocked, ConsumerBlocked, ProducerStep, ConsumerStep;
    var s := Run(g, mem, es);
    RunInv(g, mem, es);
    WorkBounds(g, s);
    if Finished(s) { ReceivedAll(g, mem, es); }
    NoDeadlock(g, mem, es);
    var e := if ProducerBlocked(g, s) then C else P([]);
    RunSnoc(g, mem, es, e);
    if Healthy(Step(g, s, e)) {
      if e.P? { ProducerProgress(g, s, []); } else { ConsumerProgress(g, s); }
      RunInv(g, mem, es + [e]);
      WorkBounds(g, Run(g, mem, es + [e]));
      var rest := Refused(g, mem, es + [e]);
      more := [e] + rest;
      assert es + more == es + [e] + rest;
    } else {
      WhyFailed(g, s, e);
      more := [e];
    }
  }

  /** "Fits the ceiling" alone is not enough: `produce_to_end` computes the next generation
      before the read that finds the end, so this stream, one byte short of a ceiling that uses
      every generation of its slot, is refused: a run without aborts ends with the producer out of generations. */
  lemma GenerationGap(sum: seq<byte> -> nat, fold: (nat, Frame) -> nat, mem: seq<seq<byte>>) returns (es: seq<Event>)
    requires |mem| == 1
    ensures var g := Config(StreamShape(8589934590, 2, 1), ToEnd, 1, 0x41, 4, seq(8589934589, _ => 0), sum, fold);
      Opened(g) && |g.source| <= g.shape.total && !Transferable(g) && NoAborts(es) && Run(g, mem, es).p.fail == Some(Exhausted)
  {
    var g := Config(StreamShape(8589934590, 2, 1), ToEnd, 1, 0x41, 4, seq(8589934589, _ => 0), sum, fold);
    assert Opened(g) && |g.source| <= g.shape.total && !Transferable(g);
    hide Opened, Transferable;
    var none: seq<Event> := [];
    assert Healthy(Run(g, mem, none));
    es := Refused(g, mem, none);
    assert none + es == es;
  }
}
