/** Filling one slot from a reader that may return short reads, interrupts and errors. */
module Source {
  import opened Bytes
  import opened Wrappers

  /** What the operating system does with the next read. */
  datatype Reply = AtMost(n: nat) | Interrupt | Fail

  datatype Outcome = Got(n: nat) | Interrupted | Failed

  /** A byte source with a sticky end. */
  class Reader {
    const data: seq<byte>
    var pos: nat
    var plan: seq<Reply>

    constructor (data: seq<byte>, plan: seq<Reply>)
      ensures this.data == data && pos == 0 && this.plan == plan
    {
      this.data, pos, this.plan := data, 0, plan;
    }

    ghost predicate Valid()
      reads this
    {
      pos <= |data|
    }

    /** Read into `buf[from..]`: some bytes if any remain and there is room, none at the end. */
    method Read(buf: array<byte>, from: nat) returns (r: Outcome)
      requires Valid() && from <= buf.Length
      modifies this, buf
      ensures Valid() && pos >= old(pos)
      ensures r.Got? ==> r.n == pos - old(pos) <= buf.Length - from
      ensures r.Got? && r.n == 0 ==> from == buf.Length || pos == |data|
      ensures r.Got? ==> forall k :: 0 <= k < buf.Length ==>
                buf[k] == if from <= k < from + r.n then data[old(pos) + k - from] else old(buf[k])
      ensures !r.Got? ==> pos == old(pos) && forall k :: 0 <= k < buf.Length ==> buf[k] == old(buf[k])
      ensures plan == if old(plan) == [] then [] else old(plan)[1..]
      ensures r.Failed? <==> old(plan) != [] && old(plan)[0].Fail?
      ensures r.Interrupted? <==> old(plan) != [] && old(plan)[0].Interrupt?
    {
      var reply := if plan == [] then AtMost(buf.Length) else plan[0];
      plan := if plan == [] then [] else plan[1..];
      match reply {
        case Interrupt => r := Interrupted;
        case Fail => r := Failed;
        case AtMost(m) =>
          var n := if buf.Length - from < |data| - pos then buf.Length - from else |data| - pos;
          if m < n { n := if m == 0 then 1 else m; }
          forall k | 0 <= k < n { buf[from + k] := data[pos + k]; }
          pos := pos + n;
          r := Got(n);
      }
    }
  }

  /** No reply of the plan is an error. */
  predicate Sound(plan: seq<Reply>) { forall i :: 0 <= i < |plan| ==> !plan[i].Fail? }

  /** `read_chunk`: whatever the pattern of short reads and interrupts, the call succeeds unless a read fails, and a
      successful call stores the next bytes of the source, as many as the destination holds or the source has left. */
  method ReadChunk(reader: Reader, destination: array<byte>) returns (r: Result<nat>)
    requires reader.Valid()
    modifies reader, destination
    ensures reader.Valid()
    ensures Sound(old(reader.plan)) ==> r.Ok?
    ensures r.Ok? ==>
      var left := |reader.data| - old(reader.pos);
      && r.value == (if destination.Length < left then destination.Length else left)
      && reader.pos == old(reader.pos) + r.value
      && destination[..r.value] == reader.data[old(reader.pos)..reader.pos]
      && destination[r.value..] == old(destination[..])[r.value..]
  {
    var filled := 0;
    ghost var start := reader.pos;
    var more := true;
    while more && filled < destination.Length
      invariant 0 <= filled <= destination.Length && reader.Valid() && reader.pos == start + filled
      invariant !more ==> reader.pos == |reader.data|
      invariant Sound(old(reader.plan)) ==> Sound(reader.plan)
      invariant forall k :: 0 <= k < destination.Length ==>
        destination[k] == if k < filled then reader.data[start + k] else old(destination[k])
      decreases more, destination.Length - filled, |reader.plan|
    {
      var got := reader.Read(destination, filled);
      match got {
        case Interrupted =>
        case Failed => return Err;
        case Got(n) =>
          if n == 0 { more := false; } else { filled := filled + n; }
      }
    }
    r := Ok(filled);
  }
}
