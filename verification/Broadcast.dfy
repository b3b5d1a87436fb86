/** The broadcast ring: one publisher gated by a cached slowest-reader position,
    and readers that join, leave, suspend and resume while it scans their cursors.

    Every event below is one shared-memory access of one endpoint (or a purely local
    step); a run is any finite sequence of events, so it is any interleaving. */
module Broadcast {
  import Arith
  import opened Wrappers

  const WORD: nat := 0x1_0000_0000_0000_0000

  /** Where the publisher is. `v` is the value it carries, `batch` tells `send_batch`
      from `try_send`, `bits` is the bitmap it loaded, `at` the next cursor to load. */
  datatype PubPc<V> =
    | Free
    | InBatch
    | Check(v: V, batch: bool)
    | Commit(v: V)
    | Lock(v: V, batch: bool)
    | Bits(v: V, batch: bool)
    | Scan(v: V, batch: bool, bits: set<nat>, at: nat, least: nat, lag: nat)
    | Recheck(v: V, batch: bool, bits: set<nat>)
    | Write(v: V, batch: bool)
    | Store
    | Gone

  /** Where the owner of one cursor slot is. */
  datatype ReaderPc =
    | Absent
    | Waiting
    | Locked
    | Stamped(now: nat)
    | Seeded(now: nat)
    | Listed(now: nat)
    | Ready
    | Suspended
    | Loaded(seen: nat, max: nat)
    | Cloning(left: nat)
    | Storing
    | Leaving

  /** The reader's own fields: its position `r`, and as history the position it joined or
      resumed at and the values it has been handed since. */
  datatype Reader<V> = Reader(pc: ReaderPc, r: nat, joined: nat, got: seq<V>)

  datatype Holder = Nobody | Publisher | Joiner(i: nat)

  datatype State<V> = State(
    cap: nat,
    buf: seq<Option<V>>,
    published: nat,          // shared.w
    lock: Holder,            // shared.membership_scan
    readers: set<nat>,       // gating bitmap
    owned: set<nat>,         // ownership bitmap
    cursors: seq<nat>,
    w: nat,                  // publisher's local write position
    minCache: nat,
    pub: PubPc<V>,
    rd: seq<Reader<V>>,
    log: seq<V>,             // history: the value written at each sequence number
    replaced: seq<V>,        // history: old values moved out by overwriting, in order
    offered: seq<V>,         // history: values handed to the publisher and not handed back
    refused: nat,            // history: sends that handed the value back
    loads: map<nat, nat>,    // history: the cursors as the latest scan loaded them
    fault: bool)             // a lapped branch, an uninitialized read, or a racing overwrite

  datatype Event<V> =
    | Send(v: V) | OpenBatch | Next(v: V) | CloseBatch | Publish | DropPublisher
    | Subscribe | Advance(i: nat) | Receive(i: nat) | Drain(i: nat, max: nat) | Unwind(i: nat)
    | Suspend(i: nat) | Resume(i: nat) | DropReader(i: nat)

  /** `open`: one subscribed reader in slot 0. */
  function Init<V>(cap: nat, slots: nat): State<V>
    requires cap > 0 && slots > 0
  {
    State(cap, seq(cap, _ => None), 0, Nobody, {0}, {0}, seq(slots, _ => 0), 0, 0, Free,
          seq(slots, i => Reader(if i == 0 then Ready else Absent, 0, 0, [])), [], [], [], 0, map[], false)
  }

  /** `w.wrapping_sub(c)` on machine words. */
  function Lag(w: nat, c: nat): nat {
    if c <= w then w - c else (WORD - (c - w) % WORD) % WORD
  }

  predicate WellFormed<V>(s: State<V>) {
    s.cap > 0 && |s.buf| == s.cap && |s.cursors| == |s.rd| > 0
  }

  // ---- publisher ------------------------------------------------------------

  predicate Reading<V>(s: State<V>, i: nat)
    requires i < |s.rd|
  {
    s.rd[i].pc.Cloning? && s.rd[i].pc.left > 0
  }

  /** Install the value at position `w`, moving the previous lap's value out. */
  function WriteSlot<V>(s: State<V>, v: V, next: PubPc<V>): State<V>
    requires WellFormed(s)
  {
    var k := s.w % s.cap;
    var race := exists i :: 0 <= i < |s.rd| && Reading(s, i) && s.rd[i].r % s.cap == k;
    var prior := s.buf[k];
    s.(buf := s.buf[k := Some(v)], w := s.w + 1, log := s.log + [v], pub := next,
       replaced := if s.w >= s.cap && prior.Some? then s.replaced + [prior.value] else s.replaced,
       fault := s.fault || race || (s.w >= s.cap && prior.None?))
  }

  /** One iteration of the scan in `slowest`, or its end. */
  function ScanStep<V>(s: State<V>): State<V>
    requires WellFormed(s) && s.pub.Scan?
  {
    var p := s.pub;
    if p.at >= |s.cursors| then
      s.(minCache := p.least, lock := Nobody, pub := Recheck(p.v, p.batch, p.bits))
    else if p.at in p.bits then
      var c := s.cursors[p.at];
      var lag := Lag(s.w, c);
      var t := s.(loads := s.loads[p.at := c]);
      if lag > p.lag
      then t.(pub := p.(at := p.at + 1, least := c, lag := lag))
      else t.(pub := p.(at := p.at + 1))
    else
      s.(pub := p.(at := p.at + 1))
  }

  function PublisherStep<V>(s: State<V>): (t: State<V>)
    requires WellFormed(s)
    ensures WellFormed(t) && t.cap == s.cap && t.rd == s.rd
  {
    match s.pub
    case Check(v, batch) =>
      if Lag(s.w, s.minCache) < s.cap then s.(pub := Write(v, batch))
      else if batch then s.(pub := Commit(v))
      else s.(pub := Lock(v, false))
    case Commit(v) => s.(published := s.w, pub := Lock(v, true))
    case Lock(v, batch) =>
      if s.lock.Nobody? then s.(lock := Publisher, pub := Bits(v, batch)) else s
    case Bits(v, batch) => s.(pub := Scan(v, batch, s.readers, 0, s.w, 0), loads := map[])
    case Scan(_, _, _, _, _, _) => ScanStep(s)
    case Recheck(v, batch, _) =>
      if Lag(s.w, s.minCache) < s.cap then s.(pub := Write(v, batch))
      else if batch then s.(pub := Check(v, true))
      else s.(pub := Free, refused := s.refused + 1,
               offered := if s.offered == [] then [] else s.offered[..|s.offered| - 1])
    case Write(v, batch) => WriteSlot(s, v, if batch then InBatch else Store)
    case Store => s.(published := s.w, pub := Free)
    case _ => s
  }

  // ---- readers --------------------------------------------------------------

  function Put<V>(s: State<V>, i: nat, x: Reader<V>): State<V>
    requires i < |s.rd|
  {
    s.(rd := s.rd[i := x])
  }

  /** The deterministic continuation of slot `i`'s owner. */
  function ReaderStep<V>(s: State<V>, i: nat): (t: State<V>)
    requires WellFormed(s) && i < |s.rd|
    ensures WellFormed(t) && t.cap == s.cap && |t.rd| == |s.rd|
  {
    var x := s.rd[i];
    match x.pc
    case Waiting =>
      if s.lock.Nobody? then Put(s.(lock := Joiner(i)), i, x.(pc := Locked)) else s
    case Locked => Put(s, i, x.(pc := Stamped(s.published)))
    case Stamped(now) => Put(s.(cursors := s.cursors[i := now]), i, x.(pc := Seeded(now)))
    case Seeded(now) => Put(s.(readers := s.readers + {i}), i, x.(pc := Listed(now)))
    case Listed(now) =>
      Put(s.(lock := Nobody), i, Reader(Ready, now, now, []))
    case Loaded(seen, max) =>
      if x.r == seen then Put(s, i, x.(pc := Ready))
      else if Lag(seen, x.r) > s.cap then
        Put(s, i, x.(pc := Storing, r := seen)).(fault := true)
      else
        var ready := Lag(seen, x.r);
        Put(s, i, x.(pc := Cloning(if ready < max then ready else max)))
    case Cloning(left) =>
      if left == 0 then Put(s, i, x.(pc := Storing))
      else
        var cell := s.buf[x.r % s.cap];
        if cell.None? then s.(fault := true)
        else Put(s, i, x.(pc := Cloning(left - 1), r := x.r + 1, got := x.got + [cell.value]))
    case Storing => Put(s.(cursors := s.cursors[i := x.r]), i, x.(pc := Ready))
    case Leaving => Put(s.(owned := s.owned - {i}), i, x.(pc := Absent))
    case _ => s
  }

  /** The lowest index missing from the ownership bitmap, or `|rd|`. */
  function FirstFree<V>(s: State<V>, i: nat): (r: nat)
    requires i <= |s.rd|
    ensures i <= r <= |s.rd| && (r < |s.rd| ==> r !in s.owned)
    decreases |s.rd| - i
  {
    if i == |s.rd| || i !in s.owned then i else FirstFree(s, i + 1)
  }

  function Step<V>(s: State<V>, e: Event<V>): (t: State<V>)
    requires WellFormed(s)
    ensures WellFormed(t) && t.cap == s.cap && |t.rd| == |s.rd|
  {
    match e
    case Send(v) => if s.pub.Free? then s.(pub := Check(v, false), offered := s.offered + [v]) else s
    case OpenBatch => if s.pub.Free? then s.(pub := InBatch) else s
    case Next(v) => if s.pub.InBatch? then s.(pub := Check(v, true), offered := s.offered + [v]) else s
    case CloseBatch => if s.pub.InBatch? then s.(published := s.w, pub := Free) else s
    case Publish => PublisherStep(s)
    case DropPublisher => if s.pub.Free? then s.(pub := Gone) else s
    case Subscribe =>
      var i := FirstFree(s, 0);
      if i < |s.rd| then Put(s.(owned := s.owned + {i}), i, s.rd[i].(pc := Waiting)) else s
    case Advance(i) => if i < |s.rd| then ReaderStep(s, i) else s
    case Receive(i) =>
      if i < |s.rd| && s.rd[i].pc.Ready?
      then Put(s, i, s.rd[i].(pc := Loaded(s.published, 1))) else s
    case Drain(i, max) =>
      if i < |s.rd| && s.rd[i].pc.Ready?
      then Put(s, i, s.rd[i].(pc := Loaded(s.published, max))) else s
    case Unwind(i) =>
      if i < |s.rd| && s.rd[i].pc.Cloning? then Put(s, i, s.rd[i].(pc := Storing)) else s
    case Suspend(i) =>
      if i < |s.rd| && s.rd[i].pc.Ready?
      then Put(s.(readers := s.readers - {i}), i, s.rd[i].(pc := Suspended)) else s
    case Resume(i) =>
      if i < |s.rd| && s.rd[i].pc.Suspended? then Put(s, i, s.rd[i].(pc := Waiting)) else s
    case DropReader(i) =>
      if i < |s.rd| && (s.rd[i].pc.Ready? || s.rd[i].pc.Suspended?)
      then Put(s.(readers := s.readers - {i}), i, s.rd[i].(pc := Leaving)) else s
  }

  /** The state after any schedule. */
  function Run<V>(cap: nat, slots: nat, es: seq<Event<V>>): (s: State<V>)
    requires cap > 0 && slots > 0
    ensures WellFormed(s) && s.cap == cap && |s.rd| == slots
  {
    if es == [] then Init(cap, slots)
    else Step(Run(cap, slots, es[..|es| - 1]), es[|es| - 1])
  }

  // ---- inductive invariant ----------------------------------------------------

  /** The reader gates the publisher and its position is meaningful. */
  predicate Active(pc: ReaderPc) {
    pc.Ready? || pc.Loaded? || pc.Cloning? || pc.Storing?
  }

  predicate HoldsLock(pc: ReaderPc) {
    pc.Locked? || pc.Stamped? || pc.Seeded? || pc.Listed?
  }

  /** The value the publisher holds but has not installed yet. */
  function Pending<V>(p: PubPc<V>): seq<V> {
    if p.Free? || p.InBatch? || p.Store? || p.Gone? then [] else [p.v]
  }

  ghost predicate PubInv<V>(s: State<V>) {
    && s.offered == s.log + Pending(s.pub)
    && |s.log| == s.w
    && s.minCache <= s.published <= s.w <= s.minCache + s.cap
    && (s.pub.Free? || s.pub.Gone? ==> s.published == s.w)
    && (s.pub.Check? && !s.pub.batch ==> s.published == s.w)
    && (s.pub.Lock? || s.pub.Bits? || s.pub.Scan? || s.pub.Recheck? ==> s.published == s.w)
    && (s.pub.Write? ==> s.w < s.minCache + s.cap)
    && (s.pub.Store? ==> s.published + 1 == s.w)
    && (s.pub.Write? && !s.pub.batch ==> s.published == s.w)
    && (s.lock.Publisher? <==> s.pub.Bits? || s.pub.Scan?)
  }

  ghost predicate BufInv<V>(s: State<V>)
    requires WellFormed(s) && |s.log| == s.w
  {
    && (forall q :: 0 <= q < s.w && s.w <= q + s.cap ==> s.buf[q % s.cap] == Some(s.log[q]))
    && s.replaced == s.log[..if s.w < s.cap then 0 else s.w - s.cap]
  }

  ghost predicate ReaderInv<V>(s: State<V>, i: nat)
    requires WellFormed(s) && i < |s.rd| && |s.log| == s.w
  {
    var x := s.rd[i];
    && (x.pc.Absent? <==> i !in s.owned)
    && (i in s.readers <==> Active(x.pc) || x.pc.Listed?)
    && (HoldsLock(x.pc) <==> s.lock == Joiner(i))
    && (Active(x.pc) ==>
          && s.minCache <= s.cursors[i] <= x.r <= s.published <= s.w
          && x.joined <= x.r
          && x.got == s.log[x.joined..x.r])
    && (x.pc.Stamped? || x.pc.Seeded? || x.pc.Listed? ==> s.minCache <= x.pc.now <= s.published)
    && (x.pc.Seeded? || x.pc.Listed? ==> s.cursors[i] == x.pc.now)
    && (x.pc.Ready? || x.pc.Loaded? ==> s.cursors[i] == x.r)
    && (x.pc.Loaded? ==> x.r <= x.pc.seen <= s.published)
    && (x.pc.Cloning? ==> x.r + x.pc.left <= s.published)
  }

  /** While the publisher scans, nobody can be added to the bitmap it loaded. */
  ghost predicate ScanInv<V>(s: State<V>)
    requires WellFormed(s)
  {
    s.pub.Scan? ==>
      var p := s.pub;
      && p.at <= |s.rd|
      && p.least + p.lag == s.w
      && s.minCache <= p.least
      && s.readers <= p.bits
      && (forall j :: 0 <= j < |s.rd| && j in p.bits && p.at <= j ==> s.minCache <= s.cursors[j] <= s.w)
      && (forall j :: 0 <= j < |s.rd| && j in s.readers && j < p.at ==> p.least <= s.cursors[j])
      && (p.bits == {} ==> p.least == s.w)
      && (forall j :: j in s.loads ==> j < p.at)
      && (p.lag > 0 ==> Slowest(s.loads, p.bits, p.least))
  }

  /** Some listed reader's cursor was loaded as `c`. */
  ghost predicate Slowest(loads: map<nat, nat>, bits: set<nat>, c: nat) {
    exists j :: j in bits && j in loads && loads[j] == c
  }

  ghost predicate Inv<V>(s: State<V>) {
    && WellFormed(s)
    && !s.fault
    && PubInv(s)
    && BufInv(s)
    && ScanInv(s)
    && (forall i :: 0 <= i < |s.rd| ==> ReaderInv(s, i))
    && (s.lock.Joiner? ==> s.lock.i < |s.rd|)
    && (s.pub.Recheck? && s.pub.bits == {} ==> s.minCache == s.w)
    && (s.pub.Recheck? && s.minCache < s.w ==> Slowest(s.loads, s.pub.bits, s.minCache))
  }

  // ---- preservation -----------------------------------------------------------

  /** Nothing that reader `j != i` depends on changed. */
  ghost predicate Elsewhere<V>(s: State<V>, t: State<V>, i: nat) {
    && WellFormed(s) && WellFormed(t) && t.cap == s.cap && |t.rd| == |s.rd|
    && (forall j :: 0 <= j < |s.rd| && j != i ==> t.rd[j] == s.rd[j] && t.cursors[j] == s.cursors[j])
    && (forall j :: 0 <= j < |s.rd| && j != i ==> (j in t.readers <==> j in s.readers) && (j in t.owned <==> j in s.owned))
    && (t.lock == s.lock || (s.lock.Nobody? && t.lock == Joiner(i)) || (s.lock == Joiner(i) && t.lock.Nobody?))
    && t.pub == s.pub && t.w == s.w && t.minCache == s.minCache && t.published == s.published
    && t.log == s.log && t.offered == s.offered && t.buf == s.buf && t.replaced == s.replaced && t.loads == s.loads
  }

  /** A step of slot `i`'s owner keeps the invariant if it keeps that slot's part of it and,
      during a scan, neither lists the slot nor moves its cursor backwards. */
  lemma OwnerStep<V>(s: State<V>, t: State<V>, i: nat)
    requires Inv(s) && i < |s.rd| && Elsewhere(s, t, i) && !t.fault
    requires ReaderInv(t, i)
    requires s.pub.Scan? ==> t.readers <= s.readers
    requires s.pub.Scan? ==> t.cursors[i] == s.cursors[i] || s.cursors[i] <= t.cursors[i] <= s.w
    ensures Inv(t)
  {
    forall j | 0 <= j < |t.rd| ensures ReaderInv(t, j) {
      assert ReaderInv(s, j);
    }
  }

  lemma InitInv<V>(cap: nat, slots: nat)
    requires cap > 0 && slots > 0
    ensures Inv(Init<V>(cap, slots))
  {
    var s := Init<V>(cap, slots);
    forall i | 0 <= i < |s.rd| ensures ReaderInv(s, i) { }
  }

  /** No reader is inside the slot the publisher is about to reuse. */
  lemma NoRace<V>(s: State<V>, i: nat)
    requires Inv(s) && s.pub.Write? && i < |s.rd| && Reading(s, i)
    ensures s.rd[i].r % s.cap != s.w % s.cap
  {
    assert ReaderInv(s, i);
    Arith.DistinctSlots(s.rd[i].r, s.w, s.cap);
  }

  lemma WriteBuf<V>(s: State<V>, v: V, next: PubPc<V>)
    requires WellFormed(s) && |s.log| == s.w && BufInv(s)
    ensures BufInv(WriteSlot(s, v, next))
    ensures s.w >= s.cap ==> s.buf[s.w % s.cap].Some?
  {
    var t := WriteSlot(s, v, next);
    forall q | 0 <= q < t.w && t.w <= q + s.cap
      ensures t.buf[q % s.cap] == Some(t.log[q])
    {
      if q < s.w { Arith.DistinctSlots(q, s.w, s.cap); }
    }
    if s.w >= s.cap {
      var q := s.w - s.cap;
      Arith.SameSlot(q, s.cap);
      assert s.buf[s.w % s.cap] == Some(s.log[q]);
      assert t.replaced == t.log[..q + 1];
    }
  }

  lemma WriteInv<V>(s: State<V>)
    requires Inv(s) && s.pub.Write?
    ensures Inv(PublisherStep(s))
  {
    var t := PublisherStep(s);
    forall i | 0 <= i < |s.rd| && Reading(s, i)
      ensures s.rd[i].r % s.cap != s.w % s.cap
    {
      NoRace(s, i);
    }
    WriteBuf(s, s.pub.v, if s.pub.batch then InBatch else Store);
    forall i | 0 <= i < |s.rd| ensures ReaderInv(t, i) {
      assert ReaderInv(s, i);
    }
  }

  /** The next cursor is loaded: a slower reader becomes the slowest, and the earlier one is not forgotten. */
  lemma ScanLoads<V>(s: State<V>)
    requires Inv(s) && s.pub.Scan? && s.pub.at < |s.cursors|
    ensures ScanInv(ScanStep(s))
  {
    hide BufInv, ReaderInv;
    var (p, t) := (s.pub, ScanStep(s));
    if p.at in p.bits {
      if t.pub.lag > p.lag {
        assert p.at in t.loads && t.loads[p.at] == t.pub.least;
      } else if p.lag > 0 {
        var j :| j in p.bits && j in s.loads && s.loads[j] == p.least;
        assert j in t.loads && t.loads[j] == p.least;
      }
    }
  }

  /** The scan ends: the least cursor loaded becomes the cached minimum. */
  lemma ScanEnds<V>(s: State<V>)
    requires Inv(s) && s.pub.Scan? && s.pub.at >= |s.cursors|
    ensures Inv(ScanStep(s))
  {
    assert BufInv(s);
    var t := ScanStep(s);
    assert BufInv(t);
    hide BufInv;
    forall i | 0 <= i < |s.rd| ensures ReaderInv(t, i) { assert ReaderInv(s, i); }
  }

  lemma ScanStepInv<V>(s: State<V>)
    requires Inv(s) && s.pub.Scan?
    ensures Inv(ScanStep(s))
  {
    if s.pub.at >= |s.cursors| {
      ScanEnds(s);
    } else {
      ScanLoads(s);
      var t := ScanStep(s);
      assert t == s.(pub := t.pub, loads := t.loads) && t.pub.Scan?;
      assert PubInv(t);
      hide ScanStep, ScanInv, BufInv;
      PublisherMove(s, t);
    }
  }

  /** A publisher step that writes no slot keeps the invariant if it keeps the publisher's part. */
  lemma PublisherMove<V>(s: State<V>, t: State<V>)
    requires Inv(s)
    requires t == s.(pub := t.pub, published := t.published, lock := t.lock, refused := t.refused,
                    offered := t.offered, loads := t.loads)
    requires s.published <= t.published
    requires t.lock == s.lock || (s.lock.Nobody? && t.lock.Publisher?)
    requires PubInv(t) && ScanInv(t)
    requires t.pub.Recheck? && t.pub.bits == {} ==> t.minCache == t.w
    requires !t.pub.Recheck? || (t.loads == s.loads && t.pub == s.pub)
    ensures Inv(t)
  {
    forall i | 0 <= i < |s.rd| ensures ReaderInv(t, i) {
      assert ReaderInv(s, i);
    }
  }

  lemma BitsInv<V>(s: State<V>)
    requires Inv(s) && s.pub.Bits?
    ensures Inv(PublisherStep(s))
  {
    var t := PublisherStep(s);
    forall j | 0 <= j < |s.rd| && j in s.readers
      ensures s.minCache <= s.cursors[j] <= s.w
    {
      assert ReaderInv(s, j);
    }
    PublisherMove(s, t);
  }

  lemma GateInv<V>(s: State<V>)
    requires Inv(s) && (s.pub.Check? || s.pub.Recheck?)
    ensures Inv(PublisherStep(s))
  {
    PublisherMove(s, PublisherStep(s));
  }

  lemma HandoverInv<V>(s: State<V>)
    requires Inv(s) && (s.pub.Commit? || s.pub.Lock? || s.pub.Store? || s.pub.Free? || s.pub.InBatch? || s.pub.Gone?)
    ensures Inv(PublisherStep(s))
  {
    PublisherMove(s, PublisherStep(s));
  }

  lemma PublisherInv<V>(s: State<V>)
    requires Inv(s)
    ensures Inv(PublisherStep(s))
  {
    match s.pub {
      case Write(_, _) => WriteInv(s);
      case Scan(_, _, _, _, _, _) => ScanStepInv(s);
      case Bits(_, _) => BitsInv(s);
      case Check(_, _) => GateInv(s);
      case Recheck(_, _, _) => GateInv(s);
      case _ => HandoverInv(s);
    }
  }

  lemma LockedInv<V>(s: State<V>, i: nat)
    requires Inv(s) && i < |s.rd|
    requires HoldsLock(s.rd[i].pc)
    ensures Inv(ReaderStep(s, i))
  {
    hide BufInv, ScanInv;
    var t := ReaderStep(s, i);
    assert ReaderInv(s, i);
    if t != s {
      assert Elsewhere(s, t, i);
      OwnerStep(s, t, i);
    }
  }

  lemma JoinInv<V>(s: State<V>, i: nat)
    requires Inv(s) && i < |s.rd|
    requires s.rd[i].pc.Waiting? || s.rd[i].pc.Leaving?
    ensures Inv(ReaderStep(s, i))
  {
    hide BufInv, ScanInv;
    var t := ReaderStep(s, i);
    assert ReaderInv(s, i);
    if t != s {
      assert Elsewhere(s, t, i);
      OwnerStep(s, t, i);
    }
  }

  lemma CloneInv<V>(s: State<V>, i: nat)
    requires Inv(s) && i < |s.rd| && Reading(s, i)
    ensures Inv(ReaderStep(s, i))
  {
    hide ScanInv;
    var t := ReaderStep(s, i);
    var x := s.rd[i];
    assert ReaderInv(s, i);
    assert s.buf[x.r % s.cap] == Some(s.log[x.r]);
    assert x.got + [s.log[x.r]] == s.log[x.joined..x.r + 1];
    OwnerStep(s, t, i);
  }

  lemma ReadInv<V>(s: State<V>, i: nat)
    requires Inv(s) && i < |s.rd|
    requires Active(s.rd[i].pc) && !Reading(s, i)
    ensures Inv(ReaderStep(s, i))
  {
    hide ScanInv, BufInv;
    var t := ReaderStep(s, i);
    assert ReaderInv(s, i);
    OwnerStep(s, t, i);
  }

  lemma ReaderStepInv<V>(s: State<V>, i: nat)
    requires Inv(s) && i < |s.rd|
    ensures Inv(ReaderStep(s, i))
  {
    var pc := s.rd[i].pc;
    if Reading(s, i) { CloneInv(s, i); }
    else if Active(pc) { ReadInv(s, i); }
    else if pc.Absent? || pc.Suspended? { assert ReaderStep(s, i) == s; }
    else if HoldsLock(pc) { LockedInv(s, i); }
    else { JoinInv(s, i); }
  }

  lemma ReadCallInv<V>(s: State<V>, e: Event<V>)
    requires Inv(s) && (e.Receive? || e.Drain?)
    ensures Inv(Step(s, e))
  {
    hide BufInv, ScanInv, ReaderStep, PublisherStep;
    if e.i < |s.rd| && Step(s, e) != s {
      assert ReaderInv(s, e.i);
      OwnerStep(s, Step(s, e), e.i);
    }
  }

  lemma UnwindInv<V>(s: State<V>, e: Event<V>)
    requires Inv(s) && e.Unwind?
    ensures Inv(Step(s, e))
  {
    hide BufInv, ScanInv, ReaderStep, PublisherStep;
    if e.i < |s.rd| && Step(s, e) != s {
      assert ReaderInv(s, e.i);
      OwnerStep(s, Step(s, e), e.i);
    }
  }

  lemma SuspendInv<V>(s: State<V>, e: Event<V>)
    requires Inv(s) && e.Suspend?
    ensures Inv(Step(s, e))
  {
    hide BufInv, ScanInv, ReaderStep, PublisherStep;
    if e.i < |s.rd| && Step(s, e) != s {
      assert ReaderInv(s, e.i);
      OwnerStep(s, Step(s, e), e.i);
    }
  }

  lemma ResumeInv<V>(s: State<V>, e: Event<V>)
    requires Inv(s) && e.Resume?
    ensures Inv(Step(s, e))
  {
    hide BufInv, ScanInv, ReaderStep, PublisherStep;
    if e.i < |s.rd| && Step(s, e) != s {
      assert ReaderInv(s, e.i);
      OwnerStep(s, Step(s, e), e.i);
    }
  }

  lemma DropReaderInv<V>(s: State<V>, e: Event<V>)
    requires Inv(s) && e.DropReader?
    ensures Inv(Step(s, e))
  {
    hide BufInv, ScanInv, ReaderStep, PublisherStep;
    if e.i < |s.rd| && Step(s, e) != s {
      assert ReaderInv(s, e.i);
      OwnerStep(s, Step(s, e), e.i);
    }
  }

  lemma SubscribeInv<V>(s: State<V>)
    requires Inv(s)
    ensures Inv(Step(s, Subscribe))
  {
    var i := FirstFree(s, 0);
    if i < |s.rd| {
      assert ReaderInv(s, i);
      OwnerStep(s, Step(s, Subscribe), i);
    }
  }

  /** Calls made on the publisher endpoint. */
  lemma PublisherCallInv<V>(s: State<V>, e: Event<V>)
    requires Inv(s)
    requires e.Send? || e.OpenBatch? || e.Next? || e.CloseBatch? || e.DropPublisher?
    ensures Inv(Step(s, e))
  {
    PublisherMove(s, Step(s, e));
  }

  lemma StepInv<V>(s: State<V>, e: Event<V>)
    requires Inv(s)
    ensures Inv(Step(s, e))
  {
    match e {
      case Publish => PublisherInv(s);
      case Advance(i) => if i < |s.rd| { ReaderStepInv(s, i); }
      case Subscribe => SubscribeInv(s);
      case Receive(_) => ReadCallInv(s, e);
      case Drain(_, _) => ReadCallInv(s, e);
      case Unwind(_) => UnwindInv(s, e);
      case Suspend(_) => SuspendInv(s, e);
      case Resume(_) => ResumeInv(s, e);
      case DropReader(_) => DropReaderInv(s, e);
      case _ => PublisherCallInv(s, e);
    }
  }

  lemma {:induction false} RunInv<V>(cap: nat, slots: nat, es: seq<Event<V>>)
    requires cap > 0 && slots > 0
    ensures Inv(Run(cap, slots, es))
  {
    if es == [] {
      InitInv<V>(cap, slots);
    } else {
      RunInv(cap, slots, es[..|es| - 1]);
      StepInv(Run(cap, slots, es[..|es| - 1]), es[|es| - 1]);
    }
  }

  // ---- what every run guarantees ------------------------------------------------

  /** The gate: every gating cursor is at or above the cached minimum and the write position
      is within one lap of it, so no slot a reader may still clone is overwritten, no
      uninitialized slot is read and the "lapped" branches are dead. */
  lemma GateHolds<V>(cap: nat, slots: nat, es: seq<Event<V>>)
    requires cap > 0 && slots > 0
    ensures var s := Run(cap, slots, es);
      && !s.fault
      && s.published <= s.w <= s.minCache + cap
      && (forall i :: 0 <= i < slots && i in s.readers ==> s.minCache <= s.cursors[i] <= s.published)
      && (forall i :: 0 <= i < slots && s.rd[i].pc.Loaded? ==> s.rd[i].r <= s.rd[i].pc.seen <= s.rd[i].r + cap)
  {
    RunInv(cap, slots, es);
    var s := Run(cap, slots, es);
    forall i | 0 <= i < slots
      ensures i in s.readers ==> s.minCache <= s.cursors[i] <= s.published
      ensures s.rd[i].pc.Loaded? ==> s.rd[i].r <= s.rd[i].pc.seen <= s.rd[i].r + cap
    {
      assert ReaderInv(s, i);
    }
  }

  /** Each reader has been handed exactly the contiguous run of published values from the
      position it joined or resumed at, in order, with nothing skipped or repeated; and an
      idle reader's cursor tells the publisher exactly that position. */
  lemma ExactRun<V>(cap: nat, slots: nat, es: seq<Event<V>>, i: nat)
    requires cap > 0 && i < slots
    ensures var s := Run(cap, slots, es);
      Active(s.rd[i].pc) ==>
        && s.rd[i].joined <= s.rd[i].r <= s.published <= |s.log|
        && s.rd[i].got == s.log[s.rd[i].joined..s.rd[i].r]
        && (s.rd[i].pc.Ready? ==> s.cursors[i] == s.rd[i].r)
  {
    RunInv(cap, slots, es);
    assert ReaderInv(Run(cap, slots, es), i);
  }

  /** A value handed to the publisher is installed once, in order, or handed back: the log is
      the offered values minus the one in flight, and is fully published between calls. */
  lemma NothingLost<V>(cap: nat, slots: nat, es: seq<Event<V>>)
    requires cap > 0 && slots > 0
    ensures var s := Run(cap, slots, es);
      && s.offered == s.log + Pending(s.pub)
      && (s.pub.Free? || s.pub.Gone? ==> s.published == |s.log|)
  {
    RunInv(cap, slots, es);
  }

  /** The values `Shared::drop` destroys: the last min(w, cap) sequence numbers. */
  function Live<V>(s: State<V>): seq<Option<V>>
    requires WellFormed(s)
  {
    var live := if s.published < s.cap then s.published else s.cap;
    seq(live, k requires 0 <= k < live => s.buf[(s.published - live + k) % s.cap])
  }

  lemma LiveIsSuffix<V>(s: State<V>)
    requires WellFormed(s) && |s.log| == s.w == s.published && BufInv(s)
    ensures |s.replaced| + |Live(s)| == |s.log|
    ensures forall k :: 0 <= k < |Live(s)| ==> Live(s)[k] == Some(s.log[|s.replaced| + k])
  {
    forall k | 0 <= k < |Live(s)| ensures Live(s)[k] == Some(s.log[|s.replaced| + k]) {
      var q := |s.replaced| + k;
      assert Live(s)[k] == s.buf[q % s.cap];
    }
  }

  /** Every value written is destroyed exactly once: moved out by the overwrite that replaced
      it, or found by the teardown walk after the publisher has gone. */
  lemma TeardownExact<V>(cap: nat, slots: nat, es: seq<Event<V>>)
    requires cap > 0 && slots > 0 && Run(cap, slots, es).pub.Gone?
    ensures var s := Run(cap, slots, es);
      && |s.replaced| + |Live(s)| == |s.log|
      && s.replaced == s.log[..|s.replaced|]
      && forall k :: 0 <= k < |Live(s)| ==> Live(s)[k] == Some(s.log[|s.replaced| + k])
  {
    hide Run, Inv, Live, Step;
    RunInv(cap, slots, es);
    TeardownAt(Run(cap, slots, es));
  }

  lemma TeardownAt<V>(s: State<V>)
    requires Inv(s) && s.pub.Gone?
    ensures WellFormed(s) && |s.replaced| + |Live(s)| == |s.log| && s.replaced == s.log[..|s.replaced|]
    ensures forall k :: 0 <= k < |Live(s)| ==> Live(s)[k] == Some(s.log[|s.replaced| + k])
  {
    hide ReaderInv, ScanInv, Live;
    LiveIsSuffix(s);
  }

  /** `try_send` hands a value back only after a scan that loaded, from a reader listed when the scan began, a cursor a full
      lap behind the write position. */
  lemma RefusalNeedsReader<V>(cap: nat, slots: nat, es: seq<Event<V>>, e: Event<V>)
    requires cap > 0 && slots > 0
    requires Step(Run(cap, slots, es), e).refused != Run(cap, slots, es).refused
    ensures var s := Run(cap, slots, es); s.pub.Recheck? && s.w == s.minCache + cap && Slowest(s.loads, s.pub.bits, s.minCache)
  {
    hide Run, Step, Inv;
    RunInv(cap, slots, es);
    RefusalAt(Run(cap, slots, es), e);
  }

  lemma RefusalAt<V>(s: State<V>, e: Event<V>)
    requires Inv(s) && Step(s, e).refused != s.refused
    ensures s.pub.Recheck? && s.w == s.minCache + s.cap && Slowest(s.loads, s.pub.bits, s.minCache)
  {
    hide ReaderInv, BufInv;
  }
}
