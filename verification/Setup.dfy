/** The setup frame that hands a worker its two stream directions: writer, validating reader, and their inverse laws. */
module Setup {
  import opened Bytes
  import opened Wrappers
  import Shape

  const MAGIC: seq<byte> := [0x50, 0x53, 0x43, 0x49, 0x50, 0x43, 0, 0]
  const VERSION: nat := 1
  const MAX_REGION_NAME: nat := 240

  // ---- values ---------------------------------------------------------------------------

  datatype PayloadKind = Raw | Pod | Codec

  datatype Payload = Payload(kind: PayloadKind, schema: nat, size: nat, align: nat)

  /** A locator of a shared region; `name` is the UTF-8 text of its name. */
  datatype Region = Region(name: seq<byte>, len: nat)

  datatype Flow = ParentToWorker | WorkerToParent

  datatype Direction = Direction(data: Region, releases: Region, shape: Shape.StreamShape, transfer: nat, flow: Flow)

  datatype Handle = Handle(payload: Payload, toWorker: Direction, toParent: Direction)

  predicate Continues(s: seq<byte>, i: nat, low: int, high: int) { i < |s| && low <= s[i] <= high }

  /** The length of the well-formed UTF-8 sequence that `s` begins with, or zero. */
  function Utf8Length(s: seq<byte>): (n: nat)
    ensures n <= |s|
  {
    if s == [] then 0
    else if s[0] < 0x80 then 1
    else if 0xC2 <= s[0] <= 0xDF then (if Continues(s, 1, 0x80, 0xBF) then 2 else 0)
    else if 0xE0 <= s[0] <= 0xEF then
      var low := if s[0] == 0xE0 then 0xA0 else 0x80;
      var high := if s[0] == 0xED then 0x9F else 0xBF;
      if Continues(s, 1, low, high) && Continues(s, 2, 0x80, 0xBF) then 3 else 0
    else if 0xF0 <= s[0] <= 0xF4 then
      var low := if s[0] == 0xF0 then 0x90 else 0x80;
      var high := if s[0] == 0xF4 then 0x8F else 0xBF;
      if Continues(s, 1, low, high) && Continues(s, 2, 0x80, 0xBF) && Continues(s, 3, 0x80, 0xBF) then 4 else 0
    else 0
  }

  predicate ValidUtf8(s: seq<byte>)
    decreases |s|
  {
    s == [] || (Utf8Length(s) > 0 && ValidUtf8(s[Utf8Length(s)..]))
  }

  predicate PayloadOk(p: Payload) {
    && p.schema < TWO64 && p.size < TWO64 && p.align < TWO64
    && match p.kind
       case Raw => p.schema == 0 && p.size == 1 && p.align == 1
       case Pod => p.schema != 0 && p.size != 0 && Shape.IsPow2(p.align)
       case Codec => p.schema != 0 && p.size == 0 && p.align == 0
  }

  predicate RegionOk(r: Region) {
    1 <= |r.name| <= MAX_REGION_NAME && ValidUtf8(r.name) && 1 <= r.len <= ISIZE_MAX
  }

  predicate DirectionOk(d: Direction) {
    RegionOk(d.data) && RegionOk(d.releases) && d.shape.total < TWO64 && Shape.Valid(d.shape) && 1 <= d.transfer < TWO64
  }

  predicate HandleOk(h: Handle) { PayloadOk(h.payload) && DirectionOk(h.toWorker) && DirectionOk(h.toParent) }

  // ---- writer: each part in front of what follows it -----------------------------------------

  function KindByte(k: PayloadKind): byte { match k case Raw => 1 case Pod => 2 case Codec => 3 }

  function FlowByte(f: Flow): byte { match f case ParentToWorker => 1 case WorkerToParent => 2 }

  function PutPayload(p: Payload, rest: seq<byte>): seq<byte> {
    [KindByte(p.kind)] + (LE(p.schema, 8) + (LE(p.size, 8) + (LE(p.align, 8) + rest)))
  }

  function PutRegion(r: Region, rest: seq<byte>): seq<byte> { LE(|r.name|, 2) + (r.name + (LE(r.len, 8) + rest)) }

  function PutShape(d: Direction, rest: seq<byte>): seq<byte> {
    LE(d.shape.total, 8) + (LE(d.shape.chunk, 8) + (LE(d.shape.slots, 8) + (LE(d.transfer, 8) + ([FlowByte(d.flow)] + rest))))
  }

  function PutDirection(d: Direction, rest: seq<byte>): seq<byte> { PutRegion(d.data, PutRegion(d.releases, PutShape(d, rest))) }

  function PutHandle(h: Handle, rest: seq<byte>): seq<byte> {
    MAGIC + (LE(VERSION, 2) + PutPayload(h.payload, PutDirection(h.toWorker, PutDirection(h.toParent, rest))))
  }

  /** The bytes written for a handle, or the writer's refusal of a region name. */
  function Encode(h: Handle): Result<seq<byte>> {
    if NameFits(h.toWorker.data) && NameFits(h.toWorker.releases) && NameFits(h.toParent.data) && NameFits(h.toParent.releases)
    then Ok(PutHandle(h, [])) else Err
  }

  predicate NameFits(r: Region) { 1 <= |r.name| <= MAX_REGION_NAME }

  // ---- reader ------------------------------------------------------------------------------------

  function ReadBytes(s: seq<byte>, n: nat): Result<(seq<byte>, seq<byte>)> {
    if |s| < n then Err else Ok((s[..n], s[n..]))
  }

  function ReadNum(s: seq<byte>, w: nat): Result<(nat, seq<byte>)> {
    var b :- ReadBytes(s, w);
    Ok((FromLE(b.0), b.1))
  }

  function ReadU64(s: seq<byte>): Result<(u64, seq<byte>)> {
    var b :- ReadBytes(s, 8);
    Widths();
    var n: u64 := FromLE(b.0);
    Ok((n, b.1))
  }

  function KindOf(n: nat): Result<PayloadKind> {
    if n == 1 then Ok(Raw) else if n == 2 then Ok(Pod) else if n == 3 then Ok(Codec) else Err
  }

  function FlowOf(n: nat): Result<Flow> {
    if n == 1 then Ok(ParentToWorker) else if n == 2 then Ok(WorkerToParent) else Err
  }

  function ReadPayload(s: seq<byte>): Result<(Payload, seq<byte>)> {
    var k :- ReadNum(s, 1);
    var kind :- KindOf(k.0);
    var schema :- ReadU64(k.1);
    var size :- ReadU64(schema.1);
    var align :- ReadU64(size.1);
    var p := Payload(kind, schema.0, size.0, align.0);
    if PayloadOk(p) then Ok((p, align.1)) else Err
  }

  function ReadRegion(s: seq<byte>): Result<(Region, seq<byte>)> {
    var n :- ReadNum(s, 2);
    if n.0 == 0 || n.0 > MAX_REGION_NAME then Err
    else
      var name :- ReadBytes(n.1, n.0);
      if !ValidUtf8(name.0) then Err
      else
        var len :- ReadU64(name.1);
        if len.0 == 0 || len.0 > ISIZE_MAX then Err else Ok((Region(name.0, len.0), len.1))
  }

  /** The numeric part of a direction, after its two regions. */
  function ReadShape(data: Region, releases: Region, s: seq<byte>): Result<(Direction, seq<byte>)> {
    var total :- ReadU64(s);
    var chunk :- ReadU64(total.1);
    var slots :- ReadU64(chunk.1);
    var transfer :- ReadU64(slots.1);
    var f :- ReadNum(transfer.1, 1);
    var flow :- FlowOf(f.0);
    var shape := Shape.StreamShape(total.0, chunk.0, slots.0);
    if !Shape.Valid(shape) || transfer.0 == 0 then Err
    else Ok((Direction(data, releases, shape, transfer.0, flow), f.1))
  }

  function ReadDirection(s: seq<byte>): Result<(Direction, seq<byte>)> {
    var data :- ReadRegion(s);
    var releases :- ReadRegion(data.1);
    ReadShape(data.0, releases.0, releases.1)
  }

  function ReadFrame(s: seq<byte>): Result<(Handle, seq<byte>)> {
    var magic :- ReadBytes(s, 8);
    if magic.0 != MAGIC then Err
    else
      var version :- ReadNum(magic.1, 2);
      if version.0 != VERSION then Err
      else
        var payload :- ReadPayload(version.1);
        var toWorker :- ReadDirection(payload.1);
        var toParent :- ReadDirection(toWorker.1);
        Ok((Handle(payload.0, toWorker.0, toParent.0), toParent.1))
  }

  // ---- what was written is read back, and trailing input is left alone -------------------------------

  lemma BytesBack(b: seq<byte>, rest: seq<byte>)
    ensures ReadBytes(b + rest, |b|) == Ok((b, rest))
  {
    assert (b + rest)[..|b|] == b && (b + rest)[|b|..] == rest;
  }

  lemma NumBack(n: nat, w: nat, rest: seq<byte>)
    requires n < Pow256(w)
    ensures ReadNum(LE(n, w) + rest, w) == Ok((n, rest))
  {
    BytesBack(LE(n, w), rest);
    FromLEofLE(n, w);
  }

  lemma U64Back(n: nat, rest: seq<byte>)
    requires n < TWO64
    ensures ReadU64(LE(n, 8) + rest) == Ok((n, rest))
  {
    Widths();
    BytesBack(LE(n, 8), rest);
    FromLEofLE(n, 8);
  }

  lemma U16Back(n: nat, rest: seq<byte>)
    requires n < 0x1_0000
    ensures ReadNum(LE(n, 2) + rest, 2) == Ok((n, rest))
  {
    Widths();
    NumBack(n, 2, rest);
  }

  lemma ByteBack(b: byte, rest: seq<byte>)
    ensures ReadNum([b] + rest, 1) == Ok((b, rest))
  {
    BytesBack([b], rest);
    assert FromLE([b]) == b by { assert [b][1..] == []; }
  }

  lemma PayloadBack(p: Payload, rest: seq<byte>)
    requires PayloadOk(p)
    ensures ReadPayload(PutPayload(p, rest)) == Ok((p, rest))
  {
    hide ReadNum, ReadU64, LE;
    ByteBack(KindByte(p.kind), LE(p.schema, 8) + (LE(p.size, 8) + (LE(p.align, 8) + rest)));
    U64Back(p.schema, LE(p.size, 8) + (LE(p.align, 8) + rest));
    U64Back(p.size, LE(p.align, 8) + rest);
    U64Back(p.align, rest);
  }

  lemma RegionBack(r: Region, rest: seq<byte>)
    requires RegionOk(r)
    ensures ReadRegion(PutRegion(r, rest)) == Ok((r, rest))
  {
    hide ReadNum, ReadU64, LE, ReadBytes, ValidUtf8;
    U16Back(|r.name|, r.name + (LE(r.len, 8) + rest));
    BytesBack(r.name, LE(r.len, 8) + rest);
    U64Back(r.len, rest);
  }

  lemma ShapeBack(d: Direction, rest: seq<byte>)
    requires DirectionOk(d)
    ensures ReadShape(d.data, d.releases, PutShape(d, rest)) == Ok((d, rest))
  {
    hide ReadNum, ReadU64, LE, Shape.Valid, RegionOk;
    var e := [FlowByte(d.flow)] + rest;
    var c := LE(d.transfer, 8) + e;
    var b := LE(d.shape.slots, 8) + c;
    U64Back(d.shape.total, LE(d.shape.chunk, 8) + b);
    U64Back(d.shape.chunk, b);
    U64Back(d.shape.slots, c);
    U64Back(d.transfer, e);
    ByteBack(FlowByte(d.flow), rest);
  }

  lemma DirectionBack(d: Direction, rest: seq<byte>)
    requires DirectionOk(d)
    ensures ReadDirection(PutDirection(d, rest)) == Ok((d, rest))
  {
    hide ReadRegion, PutRegion, RegionOk, ReadShape, PutShape;
    RegionBack(d.data, PutRegion(d.releases, PutShape(d, rest)));
    RegionBack(d.releases, PutShape(d, rest));
    ShapeBack(d, rest);
  }

  lemma FrameBack(h: Handle, rest: seq<byte>)
    requires HandleOk(h)
    ensures ReadFrame(PutHandle(h, rest)) == Ok((h, rest))
  {
    hide ReadNum, ReadBytes, LE, ReadDirection, PutDirection, ReadPayload, PutPayload, DirectionOk, PayloadOk;
    var c := PutDirection(h.toParent, rest);
    var b := PutDirection(h.toWorker, c);
    var a := PutPayload(h.payload, b);
    BytesBack(MAGIC, LE(VERSION, 2) + a);
    U16Back(VERSION, a);
    PayloadBack(h.payload, b);
    DirectionBack(h.toWorker, c);
    DirectionBack(h.toParent, rest);
  }

  lemma PutAhead(h: Handle, rest: seq<byte>)
    ensures PutHandle(h, rest) == PutHandle(h, []) + rest
  {
    DirectionAhead(h.toParent, [], rest);
    DirectionAhead(h.toWorker, PutDirection(h.toParent, []), rest);
    PayloadAhead(h.payload, PutDirection(h.toWorker, PutDirection(h.toParent, [])), rest);
    hide PutPayload, PutDirection;
    assert [] + rest == rest;
  }

  lemma PayloadAhead(p: Payload, a: seq<byte>, b: seq<byte>)
    ensures PutPayload(p, a + b) == PutPayload(p, a) + b
  {
  }

  lemma RegionAhead(r: Region, a: seq<byte>, b: seq<byte>)
    ensures PutRegion(r, a + b) == PutRegion(r, a) + b
  {
  }

  lemma ShapeAhead(d: Direction, a: seq<byte>, b: seq<byte>)
    ensures PutShape(d, a + b) == PutShape(d, a) + b
  {
  }

  lemma DirectionAhead(d: Direction, a: seq<byte>, b: seq<byte>)
    ensures PutDirection(d, a + b) == PutDirection(d, a) + b
  {
    ShapeAhead(d, a, b);
    RegionAhead(d.releases, PutShape(d, a), b);
    RegionAhead(d.data, PutRegion(d.releases, PutShape(d, a)), b);
    hide PutShape, PutRegion;
  }

  /** Reading an encoded handle returns it and leaves whatever follows untouched. */
  lemma DecodeEncode(h: Handle, rest: seq<byte>)
    requires HandleOk(h)
    ensures Encode(h).Ok? && ReadFrame(Encode(h).value + rest) == Ok((h, rest))
  {
    hide PutHandle, ReadFrame, Encode, HandleOk;
    FrameBack(h, rest);
    PutAhead(h, rest);
    NamesFit(h);
  }

  // ---- where each field is ------------------------------------------------------------------------------

  /** Bytes `[i, j)` of `s`, if it has them. */
  function Span(s: seq<byte>, i: nat, j: nat): seq<byte> { if i <= j <= |s| then s[i..j] else [] }

  /** A part written in front of a tail is found at its place, and the tail behind it. */
  lemma PartAt(s: seq<byte>, i: nat, part: seq<byte>, rest: seq<byte>)
    requires i <= |s| && s[i..] == part + rest
    ensures Span(s, i, i + |part|) == part && i + |part| <= |s| && s[i + |part|..] == rest
  {
    var t := s[i..];
    assert s[i..i + |part|] == t[..|part|] == part;
    assert s[i + |part|..] == t[|part|..] == rest;
  }

  lemma PayloadFields(s: seq<byte>, i: nat, p: Payload, rest: seq<byte>)
    requires i <= |s| && s[i..] == PutPayload(p, rest)
    ensures Span(s, i, i + 1) == [if p.kind.Raw? then 1 else if p.kind.Pod? then 2 else 3]
    ensures Span(s, i + 1, i + 9) == LE(p.schema, 8) && Span(s, i + 9, i + 17) == LE(p.size, 8) && Span(s, i + 17, i + 25) == LE(p.align, 8)
    ensures i + 25 <= |s| && s[i + 25..] == rest
  {
    hide LE, Span;
    var c := LE(p.align, 8) + rest;
    var b := LE(p.size, 8) + c;
    PartAt(s, i, [KindByte(p.kind)], LE(p.schema, 8) + b);
    PartAt(s, i + 1, LE(p.schema, 8), b);
    PartAt(s, i + 9, LE(p.size, 8), c);
    PartAt(s, i + 17, LE(p.align, 8), rest);
  }

  lemma RegionFields(s: seq<byte>, i: nat, r: Region, rest: seq<byte>)
    requires i <= |s| && s[i..] == PutRegion(r, rest)
    ensures var e := i + 2 + |r.name|;
      && Span(s, i, i + 2) == LE(|r.name|, 2) && Span(s, i + 2, e) == r.name && Span(s, e, e + 8) == LE(r.len, 8)
      && e + 8 <= |s| && s[e + 8..] == rest
  {
    hide LE, Span;
    var b := LE(r.len, 8) + rest;
    PartAt(s, i, LE(|r.name|, 2), r.name + b);
    PartAt(s, i + 2, r.name, b);
    PartAt(s, i + 2 + |r.name|, LE(r.len, 8), rest);
  }

  lemma ShapeFields(s: seq<byte>, i: nat, d: Direction, rest: seq<byte>)
    requires i <= |s| && s[i..] == PutShape(d, rest)
    ensures Span(s, i, i + 8) == LE(d.shape.total, 8) && Span(s, i + 8, i + 16) == LE(d.shape.chunk, 8)
    ensures Span(s, i + 16, i + 24) == LE(d.shape.slots, 8) && Span(s, i + 24, i + 32) == LE(d.transfer, 8)
    ensures Span(s, i + 32, i + 33) == [if d.flow.ParentToWorker? then 1 else 2]
    ensures i + 33 <= |s| && s[i + 33..] == rest
  {
    hide LE, Span;
    var e := [FlowByte(d.flow)] + rest;
    var c := LE(d.transfer, 8) + e;
    var b := LE(d.shape.slots, 8) + c;
    PartAt(s, i, LE(d.shape.total, 8), LE(d.shape.chunk, 8) + b);
    PartAt(s, i + 8, LE(d.shape.chunk, 8), b);
    PartAt(s, i + 16, LE(d.shape.slots, 8), c);
    PartAt(s, i + 24, LE(d.transfer, 8), e);
    PartAt(s, i + 32, [FlowByte(d.flow)], rest);
  }

  /** The bytes a direction takes: two locators of ten bytes and a name each, and 33 bytes of numbers. */
  function DirectionLen(d: Direction): nat { 53 + |d.data.name| + |d.releases.name| }

  /** A direction stands at offset `i` of `s`. */
  ghost predicate DirectionAt(s: seq<byte>, i: nat, d: Direction) {
    var (a, b) := (i + 2 + |d.data.name|, i + 12 + |d.data.name| + |d.releases.name|);
    && Span(s, i, i + 2) == LE(|d.data.name|, 2) && Span(s, i + 2, a) == d.data.name && Span(s, a, a + 8) == LE(d.data.len, 8)
    && Span(s, a + 8, a + 10) == LE(|d.releases.name|, 2) && Span(s, a + 10, b) == d.releases.name && Span(s, b, b + 8) == LE(d.releases.len, 8)
    && Span(s, b + 8, b + 16) == LE(d.shape.total, 8) && Span(s, b + 16, b + 24) == LE(d.shape.chunk, 8)
    && Span(s, b + 24, b + 32) == LE(d.shape.slots, 8) && Span(s, b + 32, b + 40) == LE(d.transfer, 8)
    && Span(s, b + 40, b + 41) == [if d.flow.ParentToWorker? then 1 else 2]
  }

  lemma DirectionFields(s: seq<byte>, i: nat, d: Direction, rest: seq<byte>)
    requires i <= |s| && s[i..] == PutDirection(d, rest)
    ensures DirectionAt(s, i, d) && i + DirectionLen(d) <= |s| && s[i + DirectionLen(d)..] == rest
  {
    hide LE, Span, PutRegion, PutShape;
    RegionFields(s, i, d.data, PutRegion(d.releases, PutShape(d, rest)));
    RegionFields(s, i + 10 + |d.data.name|, d.releases, PutShape(d, rest));
    ShapeFields(s, i + 20 + |d.data.name| + |d.releases.name|, d, rest);
  }

  lemma VersionBytes()
    ensures LE(VERSION, 2) == [1, 0]
  {
  }

  /** The setup frame, byte by byte: the magic text, the version, the payload contract at 10, the direction to the worker at 35 and the
      direction to the parent right behind it, with nothing between and nothing after. */
  lemma EncodedFields(h: Handle)
    requires Encode(h).Ok?
    ensures var s := Encode(h).value;
      && Span(s, 0, 8) == [0x50, 0x53, 0x43, 0x49, 0x50, 0x43, 0, 0] && Span(s, 8, 10) == [1, 0]
      && Span(s, 10, 11) == [if h.payload.kind.Raw? then 1 else if h.payload.kind.Pod? then 2 else 3]
      && Span(s, 11, 19) == LE(h.payload.schema, 8) && Span(s, 19, 27) == LE(h.payload.size, 8) && Span(s, 27, 35) == LE(h.payload.align, 8)
    ensures var s := Encode(h).value;
      && DirectionAt(s, 35, h.toWorker) && DirectionAt(s, 35 + DirectionLen(h.toWorker), h.toParent)
      && |s| == 35 + DirectionLen(h.toWorker) + DirectionLen(h.toParent)
  {
    hide LE, PutPayload, PutDirection, DirectionAt, NameFits, Span;
    var c := PutDirection(h.toParent, []);
    var b := PutDirection(h.toWorker, c);
    var a := PutPayload(h.payload, b);
    var s := PutHandle(h, []);
    VersionBytes();
    PartAt(s, 0, MAGIC, LE(VERSION, 2) + a);
    PartAt(s, 8, LE(VERSION, 2), a);
    PayloadFields(s, 10, h.payload, b);
    DirectionFields(s, 35, h.toWorker, c);
    DirectionFields(s, 35 + DirectionLen(h.toWorker), h.toParent, []);
  }

  // ---- only canonical bytes are accepted --------------------------------------------------------------

  lemma NumCanonical(s: seq<byte>, w: nat)
    requires ReadNum(s, w).Ok?
    ensures var r := ReadNum(s, w).value; s == LE(r.0, w) + r.1 && r.0 < Pow256(w)
  {
    hide LE, FromLE, Pow256;
    var b := s[..w];
    LEofFromLE(b);
    assert |b| == w && s == b + s[w..];
  }

  lemma U64Canonical(s: seq<byte>)
    requires ReadU64(s).Ok?
    ensures var r := ReadU64(s).value; s == LE(r.0, 8) + r.1
  {
    hide LE, FromLE, Pow256;
    var b := s[..8];
    LEofFromLE(b);
    assert |b| == 8 && s == b + s[8..];
  }

  lemma ByteCanonical(s: seq<byte>)
    requires ReadNum(s, 1).Ok?
    ensures var r := ReadNum(s, 1).value; r.0 < 256 && s == [r.0] + r.1
  {
    NumCanonical(s, 1);
    Widths();
    var n := ReadNum(s, 1).value.0;
    assert LE(n, 1) == [n % 256] + LE(n / 256, 0);
  }

  lemma PayloadCanonical(s: seq<byte>)
    requires ReadPayload(s).Ok?
    ensures var r := ReadPayload(s).value; PayloadOk(r.0) && PutPayload(r.0, r.1) == s
  {
    hide ReadNum, ReadU64, LE;
    var k := ReadNum(s, 1).value;
    ByteCanonical(s);
    U64Canonical(k.1);
    var schema := ReadU64(k.1).value;
    U64Canonical(schema.1);
    var size := ReadU64(schema.1).value;
    U64Canonical(size.1);
  }

  lemma RegionCanonical(s: seq<byte>)
    requires ReadRegion(s).Ok?
    ensures var r := ReadRegion(s).value; RegionOk(r.0) && PutRegion(r.0, r.1) == s
  {
    hide ReadNum, ReadU64, LE, ValidUtf8;
    NumCanonical(s, 2);
    var n := ReadNum(s, 2).value;
    var name := ReadBytes(n.1, n.0).value;
    assert n.1 == name.0 + name.1 && |name.0| == n.0;
    U64Canonical(name.1);
  }

  lemma ShapeCanonical(data: Region, releases: Region, s: seq<byte>)
    requires RegionOk(data) && RegionOk(releases) && ReadShape(data, releases, s).Ok?
    ensures var r := ReadShape(data, releases, s).value; r.0.data == data && r.0.releases == releases && DirectionOk(r.0) && PutShape(r.0, r.1) == s
  {
    hide ReadNum, ReadU64, LE, Shape.Valid, RegionOk;
    U64Canonical(s);
    var total := ReadU64(s).value;
    U64Canonical(total.1);
    var chunk := ReadU64(total.1).value;
    U64Canonical(chunk.1);
    var slots := ReadU64(chunk.1).value;
    U64Canonical(slots.1);
    ByteCanonical(ReadU64(slots.1).value.1);
  }

  lemma DirectionCanonical(s: seq<byte>)
    requires ReadDirection(s).Ok?
    ensures var r := ReadDirection(s).value; DirectionOk(r.0) && PutDirection(r.0, r.1) == s
  {
    hide ReadRegion, PutRegion, RegionOk, ReadShape, PutShape, DirectionOk;
    RegionCanonical(s);
    var data := ReadRegion(s).value;
    RegionCanonical(data.1);
    var releases := ReadRegion(data.1).value;
    ShapeCanonical(data.0, releases.0, releases.1);
  }

  lemma NamesFit(h: Handle)
    requires HandleOk(h)
    ensures Encode(h) == Ok(PutHandle(h, []))
  {
    hide PutHandle, ValidUtf8;
  }

  /** Whatever the reader accepts is a valid handle, and re-encodes to exactly the bytes consumed. */
  lemma EncodeDecode(s: seq<byte>)
    requires ReadFrame(s).Ok?
    ensures var r := ReadFrame(s).value; HandleOk(r.0) && Encode(r.0).Ok? && s == Encode(r.0).value + r.1
  {
    hide ReadNum, LE, ReadDirection, PutDirection, ReadPayload, PutPayload, DirectionOk, PayloadOk, Encode;
    var magic := ReadBytes(s, 8).value;
    assert s == magic.0 + magic.1;
    NumCanonical(magic.1, 2);
    var version := ReadNum(magic.1, 2).value;
    PayloadCanonical(version.1);
    var payload := ReadPayload(version.1).value;
    DirectionCanonical(payload.1);
    var toWorker := ReadDirection(payload.1).value;
    DirectionCanonical(toWorker.1);
    var r := ReadFrame(s).value;
    assert s == PutHandle(r.0, r.1);
    hide PutHandle, ReadFrame;
    PutAhead(r.0, r.1);
    NamesFit(r.0);
  }
}
