/** Where a reader's run begins, and that each endpoint's calls do their work: joins complete, receives hand over the next
    values, sends are accepted unless a reader is a full lap behind. */
module BroadcastProgress {
  import opened Wrappers
  import opened Arith
  import opened Broadcast

  // ---- between two points of a run --------------------------------------------------------------

  function Since<V>(s: State<V>, es: seq<Event<V>>): (t: State<V>)
    requires WellFormed(s)
    ensures WellFormed(t) && t.cap == s.cap && |t.rd| == |s.rd|
  {
    if es == [] then s else Step(Since(s, es[..|es| - 1]), es[|es| - 1])
  }

  lemma {:induction false} RunSplit<V>(cap: nat, slots: nat, es: seq<Event<V>>, more: seq<Event<V>>)
    requires cap > 0 && slots > 0
    ensures Run(cap, slots, es + more) == Since(Run(cap, slots, es), more)
    decreases |more|
  {
    if more == [] {
      assert es + more == es;
    } else {
      var l := |more| - 1;
      RunSplit(cap, slots, es, more[..l]);
      assert (es + more)[..|es| + l] == es + more[..l];
      hide Step;
    }
  }

  /** Not reading and not yet on the way in. */
  predicate Outside(pc: ReaderPc) { pc.Absent? || pc.Suspended? || pc.Waiting? || pc.Locked? || pc.Leaving? }

  /** Reader `i` has only positions stamped at or after publication `base`. */
  predicate StampedSince<V>(s: State<V>, i: nat, base: nat)
    requires i < |s.rd|
  {
    && base <= s.published
    && (s.rd[i].pc.Stamped? || s.rd[i].pc.Seeded? || s.rd[i].pc.Listed? ==> base <= s.rd[i].pc.now)
    && (Active(s.rd[i].pc) ==> base <= s.rd[i].joined)
  }

  lemma PublishedGrows<V>(s: State<V>, e: Event<V>)
    requires Inv(s)
    ensures Step(s, e).published >= s.published
  {
    hide BufInv, ReaderInv, ScanInv, ReaderStep;
    if e.Advance? && e.i < |s.rd| { ReaderLeavesPublished(s, e.i); }
  }

  lemma ReaderLeavesPublished<V>(s: State<V>, i: nat)
    requires WellFormed(s) && i < |s.rd|
    ensures ReaderStep(s, i).published == s.published
    ensures forall j :: 0 <= j < |s.rd| && j != i ==> ReaderStep(s, i).rd[j] == s.rd[j]
  {
  }

  lemma OwnStamp<V>(s: State<V>, i: nat, base: nat)
    requires WellFormed(s) && i < |s.rd| && StampedSince(s, i, base)
    ensures StampedSince(ReaderStep(s, i), i, base)
  {
  }

  lemma StampStep<V>(s: State<V>, e: Event<V>, i: nat, base: nat)
    requires Inv(s) && i < |s.rd| && StampedSince(s, i, base)
    ensures StampedSince(Step(s, e), i, base)
  {
    PublishedGrows(s, e);
    hide BufInv, ReaderInv, ScanInv, ReaderStep, PubInv;
    if e.Advance? && e.i < |s.rd| {
      ReaderLeavesPublished(s, e.i);
      if e.i == i { OwnStamp(s, i, base); }
    }
  }

  lemma {:induction false} StampRun<V>(s: State<V>, es: seq<Event<V>>, i: nat, base: nat)
    requires Inv(s) && i < |s.rd| && StampedSince(s, i, base)
    ensures Inv(Since(s, es)) && StampedSince(Since(s, es), i, base)
  {
    hide Inv, Step, StampedSince;
    assert WellFormed(s) by { WellFormedInv(s); }
    if es != [] {
      StampRun(s, es[..|es| - 1], i, base);
      var t := Since(s, es[..|es| - 1]);
      StampStep(t, es[|es| - 1], i, base);
      StepInv(t, es[|es| - 1]);
    }
  }

  lemma WellFormedInv<V>(s: State<V>)
    requires Inv(s)
    ensures WellFormed(s)
  {
  }

  /** The join window: a reader that was outside at one point of a run and is reading at a later one joined (or resumed)
      in between, at a publication count seen in between. So it is handed exactly the values from there on: nothing published
      before the first point, and nothing skipped after its join. */
  lemma JoinWindow<V>(cap: nat, slots: nat, es: seq<Event<V>>, more: seq<Event<V>>, i: nat)
    requires cap > 0 && i < slots && Outside(Run(cap, slots, es).rd[i].pc) && Active(Run(cap, slots, es + more).rd[i].pc)
    ensures var s := Run(cap, slots, es); var t := Run(cap, slots, es + more); var x := t.rd[i];
      && s.published <= x.joined <= x.r <= t.published <= |t.log|
      && x.got == t.log[x.joined..x.r]
      && (forall k :: 0 <= k < |x.got| ==> s.published <= x.joined + k < |t.log| && x.got[k] == t.log[x.joined + k])
  {
    hide Run, Inv;
    RunInv(cap, slots, es);
    RunSplit(cap, slots, es, more);
    var s := Run(cap, slots, es);
    StampRun(s, more, i, s.published);
    ExactRun(cap, slots, es + more, i);
  }

  // ---- readers --------------------------------------------------------------------------------------

  /** Slot `i`'s owner takes `n` steps on its own. */
  function Alone<V>(s: State<V>, i: nat, n: nat): (t: State<V>)
    requires WellFormed(s) && i < |s.rd|
    ensures WellFormed(t) && t.cap == s.cap && |t.rd| == |s.rd|
  {
    if n == 0 then s else ReaderStep(Alone(s, i, n - 1), i)
  }

  lemma AloneNext<V>(s: State<V>, i: nat, n: nat)
    requires WellFormed(s) && i < |s.rd|
    ensures Alone(s, i, 0) == s && Alone(s, i, 1) == ReaderStep(s, i)
    ensures n > 0 ==> Alone(s, i, n) == ReaderStep(Alone(s, i, n - 1), i)
  {
    hide ReaderStep;
  }

  lemma CloneOne<V>(t: State<V>, i: nat, left: nat, v: V)
    requires WellFormed(t) && i < |t.rd| && t.rd[i].pc == Cloning(left) && left > 0 && t.buf[t.rd[i].r % t.cap] == Some(v)
    ensures var x := t.rd[i]; ReaderStep(t, i) == t.(rd := t.rd[i := x.(pc := Cloning(left - 1), r := x.r + 1, got := x.got + [v])])
  {
  }

  /** What a reader may still clone is in its slot. */
  lemma SlotHolds<V>(s: State<V>, i: nat, n: nat, k: nat)
    requires Inv(s) && i < |s.rd| && s.rd[i].pc == Cloning(n)
    ensures s.rd[i].r + n <= |s.log| && WellFormed(s)
    ensures k < n ==> s.buf[(s.rd[i].r + k) % s.cap] == Some(s.log[s.rd[i].r + k])
  {
    assert ReaderInv(s, i);
    hide ScanInv;
  }

  /** The clones of a receive: `k` values in, the next ones of the log. */
  lemma {:induction false} Clones<V>(s: State<V>, i: nat, n: nat, k: nat)
    requires Inv(s) && i < |s.rd| && s.rd[i].pc == Cloning(n) && k <= n
    ensures WellFormed(s) && s.rd[i].r + n <= |s.log|
    ensures var x := s.rd[i];
      Alone(s, i, k) == s.(rd := s.rd[i := x.(pc := Cloning(n - k), r := x.r + k, got := x.got + s.log[x.r..x.r + k])])
  {
    hide Inv, ReaderStep, Alone;
    var x := s.rd[i];
    SlotHolds(s, i, n, 0);
    AloneNext(s, i, k);
    if k == 0 {
      assert x.got + s.log[x.r..x.r] == x.got;
      assert s.rd == s.rd[i := x];
    } else {
      Clones(s, i, n, k - 1);
      var q := x.r + k - 1;
      SlotHolds(s, i, n, k - 1);
      CloneOne(Alone(s, i, k - 1), i, n - k + 1, s.log[q]);
      assert x.got + s.log[x.r..q + 1] == (x.got + s.log[x.r..q]) + [s.log[q]];
    }
  }

  lemma {:induction false} AloneSplit<V>(s: State<V>, i: nat, a: nat, b: nat)
    requires WellFormed(s) && i < |s.rd|
    ensures Alone(s, i, a + b) == Alone(Alone(s, i, a), i, b)
    decreases b
  {
    hide ReaderStep;
    if b > 0 { AloneSplit(s, i, a, b - 1); }
  }

  /** The reader after a drain of `n` values. */
  function Drained<V>(s: State<V>, i: nat, n: nat): State<V>
    requires i < |s.rd| && i < |s.cursors| && s.rd[i].r + n <= |s.log|
  {
    var x := s.rd[i];
    s.(rd := s.rd[i := x.(pc := Ready, r := x.r + n, got := x.got + s.log[x.r..x.r + n])], cursors := s.cursors[i := x.r + n])
  }

  lemma ReadyBounds<V>(s: State<V>, i: nat)
    requires Inv(s) && i < |s.rd| && s.rd[i].pc.Ready?
    ensures WellFormed(s) && s.rd[i].r <= s.published <= |s.log| && s.cursors[i] == s.rd[i].r && s.published - s.rd[i].r <= s.cap
  {
    assert ReaderInv(s, i);
    hide ScanInv, BufInv;
  }

  lemma StartDrain<V>(a: State<V>, i: nat, seen: nat, max: nat)
    requires WellFormed(a) && i < |a.rd| && a.rd[i].pc == Loaded(seen, max) && a.rd[i].r <= seen <= a.rd[i].r + a.cap
    ensures var x := a.rd[i];
      ReaderStep(a, i) == a.(rd := a.rd[i := x.(pc := if x.r == seen then Ready else Cloning(Min(max, seen - x.r)))])
  {
  }

  lemma ReadyDrains<V>(s: State<V>, i: nat, max: nat)
    requires Inv(s) && i < |s.rd| && s.rd[i].pc.Ready?
    ensures WellFormed(s) && s.rd[i].r <= s.published <= |s.log|
    ensures var n := Min(max, s.published - s.rd[i].r);
      Alone(Step(s, Drain(i, max)), i, if s.rd[i].r == s.published then 1 else n + 3) == Drained(s, i, n)
  {
    hide Inv, ReaderStep, Alone, Step;
    ReadyBounds(s, i);
    var x := s.rd[i];
    var n := Min(max, s.published - x.r);
    var a := Step(s, Drain(i, max));
    LoadStep(s, i, max);
    StepInv(s, Drain(i, max));
    StartDrain(a, i, s.published, max);
    AloneNext(a, i, 1);
    var b := ReaderStep(a, i);
    if x.r == s.published {
      assert x.got + s.log[x.r..x.r] == x.got;
      assert s.cursors == s.cursors[i := x.r];
    } else {
      ReaderStepInv(a, i);
      Clones(b, i, n, n);
      AloneSplit(a, i, 1, n);
      AloneSplit(a, i, 1 + n, 2);
      FinishDrain(Alone(b, i, n), i);
    }
  }

  lemma LoadStep<V>(s: State<V>, i: nat, max: nat)
    requires WellFormed(s) && i < |s.rd| && s.rd[i].pc.Ready?
    ensures Step(s, Drain(i, max)) == s.(rd := s.rd[i := s.rd[i].(pc := Loaded(s.published, max))])
    ensures Step(s, Receive(i)) == Step(s, Drain(i, 1))
  {
  }

  lemma FinishDrain<V>(s: State<V>, i: nat)
    requires WellFormed(s) && i < |s.rd| && s.rd[i].pc == Cloning(0)
    ensures Alone(s, i, 2) == s.(rd := s.rd[i := s.rd[i].(pc := Ready)], cursors := s.cursors[i := s.rd[i].r])
  {
    var a := ReaderStep(s, i);
    assert a == s.(rd := s.rd[i := s.rd[i].(pc := Storing)]);
    assert Alone(s, i, 1) == a;
  }

  /** A call of `drain(max)` (or `try_recv`, with `max` one) by a ready reader hands over exactly the next values published, as
      many as there are up to `max`, and tells the publisher; the rest of the channel is untouched. */
  lemma DrainHandsOver<V>(cap: nat, slots: nat, es: seq<Event<V>>, i: nat, max: nat)
    requires cap > 0 && i < slots && Run(cap, slots, es).rd[i].pc.Ready?
    ensures var s := Run(cap, slots, es); s.rd[i].r <= s.published <= |s.log| && Step(s, Receive(i)) == Step(s, Drain(i, 1))
    ensures var s := Run(cap, slots, es); var n := Min(max, s.published - s.rd[i].r);
      Alone(Step(s, Drain(i, max)), i, if s.rd[i].r == s.published then 1 else n + 3) == Drained(s, i, n)
  {
    hide Run, Inv, Step, Alone, Drained;
    RunInv(cap, slots, es);
    ReadyDrains(Run(cap, slots, es), i, max);
    LoadStep(Run(cap, slots, es), i, max);
  }

  /** Joining (or resuming) completes in five steps once the scan lock is free, at the present publication count. */
  lemma JoinCompletes<V>(s: State<V>, i: nat)
    requires WellFormed(s) && i < |s.rd| && s.rd[i].pc.Waiting? && s.lock.Nobody?
    ensures Alone(s, i, 5) == s.(rd := s.rd[i := Reader(Ready, s.published, s.published, [])], readers := s.readers + {i},
                                 cursors := s.cursors[i := s.published])
  {
    var x := s.rd[i];
    var a := ReaderStep(s, i);
    assert a == s.(lock := Joiner(i), rd := s.rd[i := x.(pc := Locked)]) == Alone(s, i, 1);
    var b := ReaderStep(a, i);
    assert b == a.(rd := s.rd[i := x.(pc := Stamped(s.published))]) == Alone(s, i, 2);
    var c := ReaderStep(b, i);
    assert c == a.(rd := s.rd[i := x.(pc := Seeded(s.published))], cursors := s.cursors[i := s.published]) == Alone(s, i, 3);
    var d := ReaderStep(c, i);
    assert d == c.(rd := s.rd[i := x.(pc := Listed(s.published))], readers := s.readers + {i}) == Alone(s, i, 4);
  }

  /** `subscribe` finds a place exactly when one is not owned, and `resume` asks for the place again. */
  lemma SubscribeAsks<V>(s: State<V>)
    requires WellFormed(s) && exists j :: 0 <= j < |s.rd| && j !in s.owned
    ensures var i := FirstFree(s, 0); i < |s.rd| && i !in s.owned && Step(s, Subscribe).rd[i].pc.Waiting? && i in Step(s, Subscribe).owned
  {
    var j :| 0 <= j < |s.rd| && j !in s.owned;
    FreeFound(s, 0, j);
  }

  /** A reader that leaves gives its place back, and no longer holds the publisher up. */
  lemma LeaveFrees<V>(cap: nat, slots: nat, es: seq<Event<V>>, i: nat)
    requires cap > 0 && slots > 0 && i < slots
    requires var pc := Run(cap, slots, es).rd[i].pc; pc.Ready? || pc.Suspended?
    ensures var s := Run(cap, slots, es); var t := Step(Step(s, DropReader(i)), Advance(i));
      t.rd[i].pc.Absent? && t.owned == s.owned - {i} && t.readers == s.readers - {i} && FirstFree(t, 0) <= i && t.log == s.log
  {
    hide Run;
    var s := Run(cap, slots, es);
    var a := Step(s, DropReader(i));
    assert a == Put(s.(readers := s.readers - {i}), i, s.rd[i].(pc := Leaving));
    var t := Step(a, Advance(i));
    assert t.owned == s.owned - {i};
    FreeFound(t, 0, i);
  }

  lemma {:induction false} FreeFound<V>(s: State<V>, i: nat, j: nat)
    requires i <= j < |s.rd| && j !in s.owned
    ensures FirstFree(s, i) <= j
    decreases j - i
  {
    if i in s.owned { FreeFound(s, i + 1, j); }
  }

  // ---- the publisher ------------------------------------------------------------------------------------

  /** The publisher takes `n` steps on its own. */
  function Busy<V>(s: State<V>, n: nat): (t: State<V>)
    requires WellFormed(s)
    ensures WellFormed(t) && t.cap == s.cap && |t.rd| == |s.rd|
  {
    if n == 0 then s else PublisherStep(Busy(s, n - 1))
  }

  lemma {:induction false} BusySplit<V>(s: State<V>, a: nat, b: nat)
    requires WellFormed(s)
    ensures Busy(s, a + b) == Busy(Busy(s, a), b)
    decreases b
  {
    hide PublisherStep;
    if b > 0 { BusySplit(s, a, b - 1); }
  }

  /** The loaded cursors are the present ones. */
  predicate LoadsTrue<V>(s: State<V>) {
    forall j :: j in s.loads ==> j < |s.cursors| && s.loads[j] == s.cursors[j]
  }

  lemma ScanShape<V>(s: State<V>)
    requires WellFormed(s) && s.pub.Scan? && s.pub.at < |s.cursors| && LoadsTrue(s)
    ensures var t := PublisherStep(s);
      && LoadsTrue(t) && t == s.(pub := t.pub, loads := t.loads)
      && t.pub.Scan? && t.pub.at == s.pub.at + 1 && t.pub.v == s.pub.v && t.pub.batch == s.pub.batch && t.pub.bits == s.pub.bits
  {
    hide Lag;
  }

  lemma ScanOne<V>(s: State<V>)
    requires Inv(s) && s.pub.Scan? && s.pub.at < |s.cursors| && LoadsTrue(s)
    ensures var t := PublisherStep(s);
      && Inv(t) && LoadsTrue(t) && t == s.(pub := t.pub, loads := t.loads)
      && t.pub.Scan? && t.pub.at == s.pub.at + 1 && t.pub.v == s.pub.v && t.pub.batch == s.pub.batch && t.pub.bits == s.pub.bits
  {
    hide Inv, LoadsTrue, PublisherStep;
    WellFormedInv(s);
    ScanShape(s);
    PublisherInv(s);
  }

  lemma ScanLast<V>(s: State<V>)
    requires Inv(s) && s.pub.Scan? && LoadsTrue(s) && s.pub.at == |s.cursors|
    ensures var t := PublisherStep(s);
      && Inv(t) && t == s.(pub := Recheck(s.pub.v, s.pub.batch, s.pub.bits), minCache := t.minCache, lock := Nobody)
      && (t.minCache < t.w ==> exists j :: j in s.pub.bits && j < |s.cursors| && s.cursors[j] == t.minCache)
  {
    hide BufInv, ReaderInv, ScanInv;
    var t := PublisherStep(s);
    PublisherInv(s);
    if t.minCache < t.w {
      var j :| j in t.pub.bits && j in t.loads && t.loads[j] == t.minCache;
      assert s.cursors[j] == t.minCache;
    }
  }

  /** A scan left to itself ends in one step per cursor and one more, with the least cursor listed as the new minimum. */
  lemma {:induction false} ScanAlone<V>(s: State<V>)
    requires Inv(s) && s.pub.Scan? && LoadsTrue(s) && s.pub.at <= |s.cursors|
    ensures WellFormed(s)
    ensures var t := Busy(s, |s.cursors| - s.pub.at + 1);
      && Inv(t) && t == s.(pub := Recheck(s.pub.v, s.pub.batch, s.pub.bits), loads := t.loads, minCache := t.minCache, lock := Nobody)
      && (t.minCache < t.w ==> exists j :: j in s.pub.bits && j < |s.cursors| && s.cursors[j] == t.minCache)
    decreases |s.cursors| - s.pub.at
  {
    hide Inv, PublisherStep, LoadsTrue, Busy;
    WellFormedInv(s);
    BusyNext(s, 1);
    if s.pub.at == |s.cursors| {
      ScanLast(s);
    } else {
      ScanOne(s);
      ScanAlone(PublisherStep(s));
      BusySplit(s, 1, |s.cursors| - s.pub.at);
    }
  }

  /** The value is installed and published. */
  function Sent<V>(s: State<V>, v: V): State<V>
    requires WellFormed(s)
  {
    var t := WriteSlot(s, v, Free);
    t.(published := t.w)
  }

  lemma Installs<V>(s: State<V>, v: V)
    requires WellFormed(s) && s.pub == Write(v, false)
    ensures Busy(s, 2) == Sent(s, v) && Sent(s, v).log == s.log + [v] && Sent(s, v).w == s.w + 1
  {
    var a := PublisherStep(s);
    assert Busy(s, 1) == a;
    assert a == WriteSlot(s, v, Store);
  }

  /** Some listed reader is a full lap behind. */
  predicate Lagging<V>(s: State<V>) { exists j :: j in s.readers && j < |s.cursors| && s.cursors[j] + s.cap <= s.w }

  lemma GateOpen<V>(s: State<V>)
    requires Inv(s) && (s.pub.Check? || s.pub.Recheck?) && !s.pub.batch && s.w < s.minCache + s.cap
    ensures PublisherStep(s) == s.(pub := Write(s.pub.v, false))
  {
    hide BufInv, ReaderInv, ScanInv;
  }

  lemma GateShut<V>(s: State<V>)
    requires Inv(s) && s.pub.Check? && !s.pub.batch && s.w >= s.minCache + s.cap && s.lock.Nobody?
    ensures Busy(s, 3) == s.(pub := Scan(s.pub.v, false, s.readers, 0, s.w, 0), lock := Publisher, loads := map[]) && Inv(Busy(s, 3))
  {
    hide BufInv, ReaderInv, ScanInv;
    var v := s.pub.v;
    var a := PublisherStep(s);
    assert a == s.(pub := Lock(v, false)) == Busy(s, 1);
    var b := PublisherStep(a);
    assert b == s.(pub := Bits(v, false), lock := Publisher) == Busy(s, 2);
    hide PublisherStep, Inv;
    PublisherInv(s);
    PublisherInv(a);
    PublisherInv(b);
    assert Busy(s, 3) == PublisherStep(b);
    BitsLoad(b, v);
  }

  lemma BitsLoad<V>(b: State<V>, v: V)
    requires WellFormed(b) && b.pub == Bits(v, false)
    ensures PublisherStep(b) == b.(pub := Scan(v, false, b.readers, 0, b.w, 0), loads := map[])
  {
  }

  /** A send left to itself: accepted, and published, exactly when the gate is open or no listed reader is a full lap behind;
      otherwise the value is handed back. */
  lemma SendAlone<V>(cap: nat, slots: nat, es: seq<Event<V>>, v: V) returns (n: nat)
    requires cap > 0 && slots > 0 && Run(cap, slots, es).pub.Free? && Run(cap, slots, es).lock.Nobody?
    ensures n <= slots + 7
    ensures var s := Run(cap, slots, es); var t := Busy(Step(s, Send(v)), n);
      && t.pub.Free?
      && (if s.w < s.minCache + cap || !Lagging(s)
          then t.log == s.log + [v] && t.published == s.published + 1 == |t.log| && t.refused == s.refused
          else t.log == s.log && t.published == s.published && t.refused == s.refused + 1)
  {
    hide Run, Inv, Busy, PublisherStep, Step, Lagging;
    RunInv(cap, slots, es);
    var s := Run(cap, slots, es);
    n := SendFrom(s, v);
  }

  lemma SendFrom<V>(s: State<V>, v: V) returns (n: nat)
    requires Inv(s) && s.pub.Free? && s.lock.Nobody?
    ensures WellFormed(s) && n <= |s.cursors| + 7
    ensures var t := Busy(Step(s, Send(v)), n);
      && t.pub.Free?
      && (if s.w < s.minCache + s.cap || !Lagging(s)
          then t.log == s.log + [v] && t.published == s.published + 1 == |t.log| && t.refused == s.refused
          else t.log == s.log && t.published == s.published && t.refused == s.refused + 1)
  {
    hide Inv, Busy, PublisherStep, Lagging;
    FreeMeans(s);
    var a := Step(s, Send(v));
    assert a == s.(pub := Check(v, false), offered := s.offered + [v]);
    StepInv(s, Send(v));
    hide Step;
    BusyNext(a, 1);
    if s.w < s.minCache + s.cap {
      GateOpen(a);
      Installs(PublisherStep(a), v);
      BusySplit(a, 1, 2);
      SentLog(PublisherStep(a), v);
      n := 3;
    } else {
      GateShut(a);
      var b := Busy(a, 3);
      NoLoads(b);
      ScanAlone(b);
      var m := |s.cursors| + 1;
      var c := Busy(b, m);
      BusySplit(a, 3, m);
      BusyNext(c, 1);
      LaggingIs(s, c);
      if c.w < c.minCache + c.cap {
        GateOpen(c);
        Installs(PublisherStep(c), v);
        BusySplit(c, 1, 2);
        SentLog(PublisherStep(c), v);
        BusySplit(a, 3 + m, 3);
        n := 3 + m + 3;
      } else {
        HandsBack(c);
        BusySplit(a, 3 + m, 1);
        n := 3 + m + 1;
      }
    }
  }

  lemma FreeMeans<V>(s: State<V>)
    requires Inv(s) && s.pub.Free?
    ensures WellFormed(s) && s.published == s.w == |s.log|
  {
    hide BufInv, ReaderInv, ScanInv;
  }

  lemma BusyNext<V>(s: State<V>, n: nat)
    requires WellFormed(s)
    ensures Busy(s, 1) == PublisherStep(s)
  {
    hide PublisherStep;
  }

  lemma SentLog<V>(s: State<V>, v: V)
    requires WellFormed(s)
    ensures Sent(s, v).log == s.log + [v] && Sent(s, v).published == s.w + 1 && Sent(s, v).refused == s.refused && Sent(s, v).pub.Free?
  {
  }

  lemma NoLoads<V>(s: State<V>)
    requires s.loads == map[]
    ensures LoadsTrue(s)
  {
  }

  lemma HandsBack<V>(s: State<V>)
    requires Inv(s) && s.pub.Recheck? && !s.pub.batch && s.w >= s.minCache + s.cap
    ensures var t := PublisherStep(s); t.pub.Free? && t.log == s.log && t.published == s.published && t.refused == s.refused + 1
  {
    hide BufInv, ReaderInv, ScanInv;
  }

  /** After a scan of its own, the publisher finds the gate shut exactly when some listed reader is a lap behind. */
  lemma LaggingIs<V>(s: State<V>, c: State<V>)
    requires Inv(c) && c.pub.Recheck? && c.pub.bits == s.readers == c.readers && c.cursors == s.cursors && c.w == s.w && c.cap == s.cap
    requires |s.rd| == |c.rd|
    requires c.minCache < c.w ==> exists j :: j in s.readers && j < |s.cursors| && s.cursors[j] == c.minCache
    ensures c.w < c.minCache + c.cap <==> !Lagging(s)
  {
    hide BufInv, ScanInv;
    if c.w >= c.minCache + c.cap {
      var j :| j in s.readers && j < |s.cursors| && s.cursors[j] == c.minCache;
      assert s.cursors[j] + s.cap <= s.w;
    } else {
      forall j | j in s.readers && j < |s.cursors| ensures s.cursors[j] + s.cap > s.w {
        assert ReaderInv(c, j);
      }
    }
  }
}
