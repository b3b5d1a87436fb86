/** The bounded process stream: a producer and a consumer exchanging DATA, RELEASED and
    COMPLETE frames over two descriptor rings and a window of reusable payload slots.

    A run is any interleaving of producer steps, consumer steps and aborts (timeouts, peer
    loss, source or sink errors). While a slot is being filled its bytes are arbitrary. */
module Stream {
  import opened Bytes
  import opened Wrappers
  import opened Frames
  import opened Shape

  /** `produce`/`consume` transfer exactly `total` bytes; the `_to_end` forms transfer the
      source up to its end, with `total` as a ceiling. */
  datatype Mode = Exact | ToEnd

  /** `sum` is the payload checksum and `fold` the running aggregate; nothing below depends on
      which functions they are. */
  datatype Config = Config(shape: StreamShape, mode: Mode, transfer: u64, flags: byte, capacity: nat,
                           source: seq<byte>, sum: seq<byte> -> nat, fold: (nat, Frame) -> nat)

  datatype Cause = BadFrame | ShortSource | Excess | Exhausted | Aborted

  datatype ProducerPc =
    | Top | AwaitSlot | Fill | Filled | Push(f: Frame) | Drain | PushEnd | AwaitEnd | Sent

  datatype Producer = Producer(pc: ProducerPc, fail: Option<Cause>, sent: nat, released: nat, read: nat, aggregate: nat)

  datatype ConsumerPc =
    | Wait | Check(f: Frame) | Write(f: Frame) | Release(f: Frame) | Finish(f: Frame) | Reply(f: Frame)
    | Received

  datatype Consumer = Consumer(pc: ConsumerPc, fail: Option<Cause>, got: nat, total: nat, aggregate: nat, out: seq<byte>)

  datatype State = State(p: Producer, c: Consumer, data: seq<Frame>, releases: seq<Frame>, mem: seq<seq<byte>>)

  /** `junk` is whatever the slot holds while it is being filled and beyond the filled length. */
  datatype Event = P(junk: seq<byte>) | C | AbortP | AbortC

  /** A direction that `Direction::create` and `Direction::open` accept. */
  predicate Opened(g: Config) {
    Valid(g.shape) && DescriptorCapacity(g.shape.slots) == Ok(g.capacity)
  }

  /** Both rings start empty; the payload slots may hold anything, such as an earlier transfer. */
  function Init(mem: seq<seq<byte>>): State {
    State(Producer(Top, None, 0, 0, 0, 0), Consumer(Wait, None, 0, 0, 0, []), [], [], mem)
  }

  // ---- validators -------------------------------------------------------------

  /** `validate_release` and `validate_dynamic_release`. */
  predicate ReleaseOk(g: Config, f: Frame, k: nat)
    requires Valid(g.shape)
  {
    match g.mode
    case Exact =>
      var m := ChunkMeta(g.shape, k);
      && m.Ok? && f.kind == Released && f.flags == g.flags && f.transfer == g.transfer
      && f.offset == m.value.offset && f.slot == m.value.slot
      && f.generation == m.value.generation && f.len == m.value.len
    case ToEnd =>
      && k / g.shape.slots + 1 <= U32_MAX
      && f.kind == Released && f.flags == g.flags && f.transfer == g.transfer
      && f.slot == k % g.shape.slots && f.generation == k / g.shape.slots + 1
      && 0 < f.len <= g.shape.chunk && f.offset + f.len < TWO64 && f.offset + f.len <= g.shape.total
  }

  /** `Arena::slot`: the first `len` bytes of a slot, bounds checked. */
  function SlotBytes(g: Config, mem: seq<seq<byte>>, slot: nat, len: nat): Result<seq<byte>> {
    if slot >= g.shape.slots || len == 0 || len > g.shape.chunk || slot >= |mem| || len > |mem[slot]| then Err
    else Ok(mem[slot][..len])
  }

  /** `validate_chunk` and `validate_dynamic_chunk`. */
  predicate ChunkOk(g: Config, mem: seq<seq<byte>>, f: Frame, k: nat, offset: nat)
    requires Valid(g.shape)
  {
    match g.mode
    case Exact =>
      var m := ChunkMeta(g.shape, k);
      && m.Ok?
      && var bytes := SlotBytes(g, mem, m.value.slot, m.value.len);
      && bytes.Ok? && f.kind == Data && f.flags == g.flags && f.transfer == g.transfer
      && f.offset == m.value.offset && f.slot == m.value.slot
      && f.generation == m.value.generation && f.len == m.value.len
      && f.checksum == g.sum(bytes.value)
    case ToEnd =>
      && k / g.shape.slots + 1 <= U32_MAX
      && f.kind == Data && f.flags == g.flags && f.transfer == g.transfer && f.offset == offset
      && f.slot == k % g.shape.slots && f.generation == k / g.shape.slots + 1
      && 0 < f.len <= g.shape.chunk && offset + f.len < TWO64 && offset + f.len <= g.shape.total
      && var bytes := SlotBytes(g, mem, k % g.shape.slots, f.len);
      && bytes.Ok? && f.checksum == g.sum(bytes.value)
  }

  /** `validate_complete` and `validate_dynamic_complete`. */
  predicate CompleteOk(g: Config, f: Frame, total: nat, aggregate: nat) {
    && (g.mode.ToEnd? ==> total <= g.shape.total)
    && f.kind == Complete && f.flags == g.flags && f.transfer == g.transfer
    && f.offset == (if g.mode.Exact? then g.shape.total else total)
    && f.slot == 0 && f.generation == 0 && f.len == 0 && f.checksum == aggregate
  }

  // ---- producer ---------------------------------------------------------------

  function FailP(s: State, why: Cause): State { s.(p := s.p.(fail := Some(why))) }

  function TopStep(g: Config, s: State): State
    requires Opened(g)
  {
    var p := s.p;
    var done := if g.mode.Exact? then p.sent >= Chunks(g.shape) else p.read == g.shape.total;
    if done then
      if g.mode.ToEnd? && p.read < |g.source| then FailP(s, Excess) else s.(p := p.(pc := Drain))
    else s.(p := p.(pc := if p.sent >= g.shape.slots then AwaitSlot else Fill))
  }

  /** Pop one release and validate it against the next expected chunk. */
  function PopRelease(g: Config, s: State, next: ProducerPc): State
    requires Opened(g)
  {
    if s.releases == [] then s
    else if ReleaseOk(g, s.releases[0], s.p.released)
    then s.(releases := s.releases[1..], p := s.p.(released := s.p.released + 1, pc := next))
    else FailP(s.(releases := s.releases[1..]), BadFrame)
  }

  /** The offset, capacity, slot and generation of the next chunk: `chunk_meta`, or the running
      total and what remains below the ceiling. */
  function NextMeta(g: Config, sent: nat, read: nat): Result<Meta>
    requires Opened(g)
  {
    if read > g.shape.total then Err
    else if g.mode.Exact? then ChunkMeta(g.shape, sent)
    else if sent / g.shape.slots + 1 > U32_MAX then Err
    else
      var room := g.shape.total - read;
      Ok(Meta(read, if room < g.shape.chunk then room else g.shape.chunk,
              sent % g.shape.slots, sent / g.shape.slots + 1))
  }

  /** What `read_exact`, or `read_chunk` on a source with a sticky end, stores in the slot. */
  function TakeBytes(g: Config, at: nat, len: nat): Result<seq<byte>> {
    if at + len <= |g.source| then Ok(g.source[at..at + len])
    else if g.mode.Exact? || at > |g.source| then Err
    else Ok(g.source[at..])
  }

  function FilledStep(g: Config, s: State, junk: seq<byte>): State
    requires Opened(g)
  {
    var p := s.p;
    var m := NextMeta(g, p.sent, p.read);
    if m.Err? || m.value.slot >= |s.mem| then FailP(s, BadFrame)
    else
      var bytes := TakeBytes(g, p.read, m.value.len);
      if bytes.Err? then FailP(s, ShortSource)
      else if bytes.value == [] then
        if g.mode.ToEnd? then s.(p := p.(pc := Drain)) else FailP(s, BadFrame)
      else
        var f := Frame(Data, g.flags, g.transfer, m.value.offset, m.value.slot, m.value.generation,
                       |bytes.value|, g.sum(bytes.value));
        s.(mem := s.mem[m.value.slot := bytes.value + junk],
           p := p.(pc := Push(f), read := p.read + |bytes.value|, aggregate := g.fold(p.aggregate, f)))
  }

  function FillStep(g: Config, s: State, junk: seq<byte>): State
    requires Opened(g)
  {
    var m := NextMeta(g, s.p.sent, s.p.read);
    if m.Err? then FailP(s, Exhausted)
    else if m.value.slot >= |s.mem| then FailP(s, BadFrame)
    else s.(mem := s.mem[m.value.slot := junk], p := s.p.(pc := Filled))
  }

  function EndFrame(g: Config, read: nat, aggregate: nat): Frame {
    Frame(Complete, g.flags, g.transfer, if g.mode.Exact? then g.shape.total else read, 0, 0, 0, aggregate)
  }

  function ProducerStep(g: Config, s: State, junk: seq<byte>): State
    requires Opened(g)
  {
    var p := s.p;
    match p.pc
    case Top => TopStep(g, s)
    case AwaitSlot => PopRelease(g, s, Fill)
    case Fill => FillStep(g, s, junk)
    case Filled => FilledStep(g, s, junk)
    case Push(f) =>
      if |s.data| >= g.capacity then s
      else s.(data := s.data + [f], p := p.(pc := Top, sent := p.sent + 1))
    case Drain =>
      if p.released < p.sent then PopRelease(g, s, Drain) else s.(p := p.(pc := PushEnd))
    case PushEnd =>
      if |s.data| >= g.capacity then s
      else s.(data := s.data + [EndFrame(g, p.read, p.aggregate)], p := p.(pc := AwaitEnd))
    case AwaitEnd =>
      if s.releases == [] then s
      else if CompleteOk(g, s.releases[0], p.read, p.aggregate)
      then s.(releases := s.releases[1..], p := p.(pc := Sent))
      else FailP(s.(releases := s.releases[1..]), BadFrame)
    case Sent => s
  }

  // ---- consumer ---------------------------------------------------------------

  function FailC(s: State, why: Cause): State { s.(c := s.c.(fail := Some(why))) }

  function ConsumerStep(g: Config, s: State): State
    requires Opened(g)
  {
    var c := s.c;
    match c.pc
    case Wait =>
      if s.data == [] then s
      else
        var f := s.data[0];
        var last := if g.mode.Exact? then c.got >= Chunks(g.shape) else f.kind == Complete;
        s.(data := s.data[1..], c := c.(pc := if last then Finish(f) else Check(f)))
    case Check(f) =>
      if ChunkOk(g, s.mem, f, c.got, c.total)
      then s.(c := c.(pc := Write(f))) else FailC(s, BadFrame)
    case Write(f) =>
      var bytes := SlotBytes(g, s.mem, f.slot, f.len);
      if bytes.Err? then FailC(s, BadFrame)
      else s.(c := c.(pc := Release(f), total := c.total + f.len, out := c.out + bytes.value,
                      aggregate := g.fold(c.aggregate, f)))
    case Release(f) =>
      if |s.releases| >= g.capacity then s
      else s.(releases := s.releases + [f.(kind := Released)], c := c.(pc := Wait, got := c.got + 1))
    case Finish(f) =>
      if CompleteOk(g, f, c.total, c.aggregate) then s.(c := c.(pc := Reply(f))) else FailC(s, BadFrame)
    case Reply(f) =>
      if |s.releases| >= g.capacity then s
      else s.(releases := s.releases + [f], c := c.(pc := Received))
    case Received => s
  }

  function Step(g: Config, s: State, e: Event): State
    requires Opened(g)
  {
    match e
    case P(junk) => if s.p.fail.Some? then s else ProducerStep(g, s, junk)
    case C => if s.c.fail.Some? then s else ConsumerStep(g, s)
    case AbortP => if s.p.pc.Sent? || s.p.fail.Some? then s else FailP(s, Aborted)
    case AbortC => if s.c.pc.Received? || s.c.fail.Some? then s else FailC(s, Aborted)
  }

  function Run(g: Config, mem: seq<seq<byte>>, es: seq<Event>): State
    requires Opened(g)
  {
    if es == [] then Init(mem) else Step(g, Run(g, mem, es[..|es| - 1]), es[|es| - 1])
  }
}
