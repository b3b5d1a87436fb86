/** Stream frames and their 48-byte encoding. */
module Frames {
  import opened Bytes
  import opened Wrappers

  const FRAME_MAGIC: u32 := 0x5053_5354
  const VERSION: nat := 2
  const FRAME_LEN: nat := 48

  datatype Kind = Data | Released | Complete

  function KindByte(k: Kind): byte {
    match k case Data => 1 case Released => 2 case Complete => 3
  }

  function KindOf(b: byte): Result<Kind> {
    if b == 1 then Ok(Data) else if b == 2 then Ok(Released) else if b == 3 then Ok(Complete) else Err
  }

  datatype Frame = Frame(kind: Kind, flags: byte, transfer: nat, offset: nat,
                         slot: nat, generation: nat, len: nat, checksum: nat)

  /** Every field fits the width it is encoded with. */
  predicate Fits(f: Frame) {
    && f.transfer < TWO64 && f.offset < TWO64 && f.checksum < TWO64
    && f.slot < TWO32 && f.generation < TWO32 && f.len < TWO32
  }

  // ---- encoding ---------------------------------------------------------------

  function Front(f: Frame): (s: seq<byte>)
    ensures |s| == 24
  {
    LE(FRAME_MAGIC, 4) + LE(VERSION, 2) + [KindByte(f.kind)] + [f.flags] + LE(f.transfer, 8) + LE(f.offset, 8)
  }

  function Back(f: Frame): (s: seq<byte>)
    ensures |s| == 24
  {
    LE(f.slot, 4) + LE(f.generation, 4) + LE(f.len, 4) + [0, 0, 0, 0] + LE(f.checksum, 8)
  }

  function Encode(f: Frame): (s: seq<byte>)
    ensures |s| == FRAME_LEN
  {
    Front(f) + Back(f)
  }

  function U32(s: seq<byte>): u32
    requires |s| == 4
  {
    Widths(); FromLE(s)
  }

  function U64(s: seq<byte>): u64
    requires |s| == 8
  {
    Widths(); FromLE(s)
  }

  function Decode(s: seq<byte>): Result<Frame>
    requires |s| == FRAME_LEN
  {
    if U32(s[0..4]) != FRAME_MAGIC || FromLE(s[4..6]) != VERSION || s[36..40] != [0, 0, 0, 0] then Err
    else
      var kind :- KindOf(s[6]);
      Ok(Frame(kind, s[7], U64(s[8..16]), U64(s[16..24]), U32(s[24..28]), U32(s[28..32]), U32(s[32..36]), U64(s[40..48])))
  }

  /** The fields of an encoded frame sit at the documented offsets. */
  lemma EncodedFields(f: Frame)
    ensures var s := Encode(f);
      && s[0..4] == LE(FRAME_MAGIC, 4) && s[4..6] == LE(VERSION, 2)
      && s[6] == KindByte(f.kind) && s[7] == f.flags
      && s[8..16] == LE(f.transfer, 8) && s[16..24] == LE(f.offset, 8)
      && s[24..28] == LE(f.slot, 4) && s[28..32] == LE(f.generation, 4) && s[32..36] == LE(f.len, 4)
      && s[36..40] == [0, 0, 0, 0] && s[40..48] == LE(f.checksum, 8)
  {
    var s := Encode(f);
    assert s[..24] == Front(f) && s[24..] == Back(f);
    FrontFields(f);
    BackFields(f);
    assert s[0..4] == s[..24][0..4] && s[4..6] == s[..24][4..6] && s[8..16] == s[..24][8..16] && s[16..24] == s[..24][16..24];
    assert s[24..28] == s[24..][0..4] && s[28..32] == s[24..][4..8] && s[32..36] == s[24..][8..12];
    assert s[36..40] == s[24..][12..16] && s[40..48] == s[24..][16..24];
  }

  /** The first seven bytes, as numbers. */
  lemma EncodedPreamble(f: Frame)
    ensures Encode(f)[..6] == [0x54, 0x53, 0x53, 0x50, 2, 0]
    ensures Encode(f)[6] == if f.kind.Data? then 1 else if f.kind.Released? then 2 else 3
  {
    EncodedFields(f);
    var s := Encode(f);
    assert LE(FRAME_MAGIC, 4) == [0x54, 0x53, 0x53, 0x50];
    assert LE(VERSION, 2) == [2, 0];
    assert s[..6] == s[0..4] + s[4..6];
  }

  lemma FrontFields(f: Frame)
    ensures var s := Front(f);
      && s[0..4] == LE(FRAME_MAGIC, 4) && s[4..6] == LE(VERSION, 2) && s[6] == KindByte(f.kind) && s[7] == f.flags
      && s[8..16] == LE(f.transfer, 8) && s[16..24] == LE(f.offset, 8)
  {
    hide LE;
    var (a, b, c, d) := (LE(FRAME_MAGIC, 4), LE(VERSION, 2), LE(f.transfer, 8), LE(f.offset, 8));
    var k, g := [KindByte(f.kind)], [f.flags];
    var s := a + b + k + g + c + d;
    assert s == Front(f);
    assert s[0..4] == a && s[4..6] == b && s[6] == k[0] && s[7] == g[0];
    assert s[8..16] == c && s[16..24] == d;
  }

  lemma BackFields(f: Frame)
    ensures var s := Back(f);
      && s[0..4] == LE(f.slot, 4) && s[4..8] == LE(f.generation, 4) && s[8..12] == LE(f.len, 4)
      && s[12..16] == [0, 0, 0, 0] && s[16..24] == LE(f.checksum, 8)
  {
    hide LE;
    var (a, b, c, z, e) := (LE(f.slot, 4), LE(f.generation, 4), LE(f.len, 4), [0, 0, 0, 0], LE(f.checksum, 8));
    var s := a + b + c + z + e;
    assert s[0..4] == a && s[4..8] == b && s[8..12] == c;
    assert s[12..16] == z && s[16..24] == e;
  }

  lemma DecodeEncode(f: Frame)
    requires Fits(f)
    ensures Decode(Encode(f)) == Ok(f)
  {
    EncodedFields(f);
    Widths();
    FromLEofLE(FRAME_MAGIC, 4);
    FromLEofLE(VERSION, 2);
    FromLEofLE(f.transfer, 8);
    FromLEofLE(f.offset, 8);
    FromLEofLE(f.slot, 4);
    FromLEofLE(f.generation, 4);
    FromLEofLE(f.len, 4);
    FromLEofLE(f.checksum, 8);
  }

  lemma FrontCanonical(s: seq<byte>)
    requires |s| == FRAME_LEN && Decode(s).Ok?
    ensures Front(Decode(s).value) == s[..24]
  {
    hide LE, FromLE;
    var (a, b, c, d) := (s[0..4], s[4..6], s[8..16], s[16..24]);
    LEofFromLE(a);
    LEofFromLE(b);
    LEofFromLE(c);
    LEofFromLE(d);
    assert LE(FRAME_MAGIC, 4) == a && LE(VERSION, 2) == b;
    assert s[..24] == a + b + [s[6]] + [s[7]] + c + d;
  }

  lemma BackCanonical(s: seq<byte>)
    requires |s| == FRAME_LEN && Decode(s).Ok?
    ensures Back(Decode(s).value) == s[24..]
  {
    hide LE, FromLE;
    var (a, b, c, d) := (s[24..28], s[28..32], s[32..36], s[40..48]);
    LEofFromLE(a);
    LEofFromLE(b);
    LEofFromLE(c);
    LEofFromLE(d);
    assert s[24..] == a + b + c + [0, 0, 0, 0] + d;
  }

  /** Only the canonical bytes of a frame decode. */
  lemma EncodeDecode(s: seq<byte>)
    requires |s| == FRAME_LEN && Decode(s).Ok?
    ensures Encode(Decode(s).value) == s && Fits(Decode(s).value)
  {
    FrontCanonical(s);
    BackCanonical(s);
    assert s == s[..24] + s[24..];
  }
}
