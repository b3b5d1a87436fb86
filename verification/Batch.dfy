/** The owned FIFO batch: a vector whose first `read` slots were moved out, and the default bulk push over it. */
module Batch {
  import opened Wrappers
  import opened Arith

  /** The values a slice of occupied slots holds. */
  function Values<V>(slots: seq<Option<V>>): (r: seq<V>)
    requires forall i :: 0 <= i < |slots| ==> slots[i].Some?
    ensures |r| == |slots|
  {
    seq(|slots|, i requires 0 <= i < |slots| => slots[i].value)
  }

  class Batch<V> {
    var values: seq<Option<V>>      // None: moved out, or not initialised
    var read: nat

    ghost predicate Valid()
      reads this
    {
      && read <= |values|
      && (forall i :: 0 <= i < read ==> values[i].None?)
      && forall i :: read <= i < |values| ==> values[i].Some?
    }

    /** The unread values, oldest first. */
    ghost function Contents(): seq<V>
      requires Valid()
      reads this
    {
      Values(values[read..])
    }

    constructor ()
      ensures Valid() && Contents() == []
    {
      values, read := [], 0;
    }

    /** Drops what is unread, once, and starts afresh. */
    method Clear() returns (dropped: seq<V>)
      requires Valid()
      modifies this
      ensures Valid() && Contents() == [] && dropped == old(Contents()) && read == 0
    {
      var last := values[read..];
      values, read := [], 0;
      dropped := Values(last);
    }

    method Len() returns (n: nat)
      requires Valid()
      ensures n == |Contents()|
    {
      n := |values| - read;
    }

    method PushBack(v: V)
      requires Valid()
      modifies this
      ensures Valid() && Contents() == old(Contents()) + [v] && read == old(read)
    {
      values := values + [Some(v)];
    }

    method PopFront() returns (r: Option<V>)
      requires Valid()
      modifies this
      ensures Valid()
      ensures old(Contents()) == [] ==> r.None? && Contents() == [] && read == old(read)
      ensures old(Contents()) != [] ==> r == Some(old(Contents())[0]) && Contents() == old(Contents())[1..] && read == old(read) + 1
    {
      if read == |values| { return None; }
      r := values[read];
      values := values[read := None];
      read := read + 1;
    }

    /** Puts a rejected value back into the slot `PopFront` just vacated. */
    method RestoreFront(v: V)
      requires Valid() && read > 0
      modifies this
      ensures Valid() && Contents() == [v] + old(Contents()) && read == old(read) - 1
    {
      values := values[read - 1 := Some(v)];
      read := read - 1;
    }
  }

  /** A backend's sending end, as far as bulk pushing sees it. */
  class Sink<V> {
    var queue: seq<V>
    var room: nat

    constructor (room: nat)
      ensures queue == [] && this.room == room
    {
      queue, this.room := [], room;
    }

    method TryPush(v: V) returns (r: Option<V>)
      modifies this
      ensures old(room) > 0 ==> r.None? && queue == old(queue) + [v] && room == old(room) - 1
      ensures old(room) == 0 ==> r == Some(v) && queue == old(queue) && room == 0
    {
      if room == 0 { return Some(v); }
      queue, room, r := queue + [v], room - 1, None;
    }
  }

  lemma Cut<V>(all: seq<V>, k: nat)
    requires k < |all|
    ensures all[k..][0] == all[k] && all[k..][1..] == all[k + 1..] && [all[k]] + all[k + 1..] == all[k..]
    ensures all[..k + 1] == all[..k] + [all[k]]
  {
  }

  /** The default bulk push moves the longest prefix allowed by the limit and the room, in order, and leaves the rest in the batch. */
  method PushFrom<V>(sink: Sink<V>, max: nat, source: Batch<V>) returns (accepted: nat)
    requires source.Valid()
    modifies sink, source
    ensures source.Valid()
    ensures accepted == Min(max, Min(|old(source.Contents())|, old(sink.room)))
    ensures sink.queue == old(sink.queue) + old(source.Contents())[..accepted] && sink.room == old(sink.room) - accepted
    ensures source.Contents() == old(source.Contents())[accepted..]
  {
    accepted := 0;
    ghost var all := source.Contents();
    while accepted < max
      invariant source.Valid() && accepted <= max && accepted <= |all| && accepted <= old(sink.room)
      invariant sink.queue == old(sink.queue) + all[..accepted] && sink.room == old(sink.room) - accepted
      invariant source.Contents() == all[accepted..]
    {
      var v := source.PopFront();
      if v.None? { break; }
      Cut(all, accepted);
      var back := sink.TryPush(v.value);
      if back.Some? {
        source.RestoreFront(back.value);
        break;
      }
      accepted := accepted + 1;
    }
  }
}
