/** The bounded single-producer single-consumer ring: wrapping counters, a stale copy of the
    peer's counter at each end, bulk moves, unwinding drains, teardown and recycling.

    `try_push` is a push of one value and `try_pop` a drain of one; `push_from`, `drain_into` and
    `drain_in_place` move up to a limit and publish once. Each slot access is its own step. */
module Ring {
  import opened Wrappers
  import opened Arith
  import Batch

  /** `items` are offered, `n` of them accepted, `k` of those already in their slots. */
  datatype SenderPc<V> = Ready | Plan(items: seq<V>) | Refresh(items: seq<V>) | Move(items: seq<V>, n: nat, k: nat)
    | Leaving | Dropped

  /** `Close*` is the drain loop of the receiver's drop, `Probe*` is `is_finished`. */
  datatype ReceiverPc =
    | Idle | Take(max: nat) | Reload(max: nat) | Moving(n: nat, k: nat)
    | Probe | ProbeTail | Finished
    | Closing | Closed | Freed

  datatype State<V> = State(
    cap: nat, word: nat,                  // `word` is the modulus of a machine counter
    buf: seq<Option<V>>,
    head: nat, tail: nat,                 // shared counters, reduced modulo `word`
    producerGone: bool, consumerGone: bool,
    tx: SenderPc<V>, headCache: nat,
    rx: ReceiverPc, tailCache: nat,
    pushed: seq<V>, taken: seq<V>, destroyed: seq<V>,   // history of this epoch
    h: nat, hc: nat, tc: nat,             // history: the unreduced head, head cache and tail cache
    past: nat,                            // history: values delivered in earlier epochs
    fault: bool)                          // a slot was read while empty or written while full

  datatype Event<V> =
    | Push(items: seq<V>) | Tx | DropSender
    | Pop(max: nat) | Rx | Unwind | IsFinished | Recycle | DropReceiver | Free

  function Init<V>(cap: nat, word: nat): State<V> {
    State(cap, word, seq(cap, _ => None), 0, 0, false, false, Ready, 0, Idle, 0, [], [], [], 0, 0, 0, 0, false)
  }

  predicate WellFormed<V>(s: State<V>) {
    0 < s.cap == |s.buf| && 2 * s.cap <= s.word && s.word % s.cap == 0
  }

  /** `a.wrapping_sub(b)`. */
  function Sub(a: nat, b: nat, word: nat): nat
    requires word > 0
  {
    (a - b) % word
  }

  // ---- sender -----------------------------------------------------------------

  function Accept<V>(s: State<V>, items: seq<V>, cache: nat): State<V>
    requires WellFormed(s)
  {
    var used := Sub(s.tail, cache, s.word);
    var n := Min(|items|, if used <= s.cap then s.cap - used else 0);
    s.(headCache := cache, tx := if n == 0 then Ready else Move(items, n, 0))
  }

  function SenderStep<V>(s: State<V>): (t: State<V>)
    requires WellFormed(s)
    ensures WellFormed(t) && t.cap == s.cap && t.word == s.word
  {
    match s.tx
    case Ready => s
    case Leaving => s.(tx := Dropped)
    case Dropped => s
    case Plan(items) =>
      if items == [] then s.(tx := Ready)
      else if Sub(s.tail, s.headCache, s.word) >= s.cap then s.(tx := Refresh(items))
      else Accept(s, items, s.headCache)
    case Refresh(items) => Accept(s, items, s.head).(hc := s.h)
    case Move(items, n, k) =>
      if k < n && k < |items| then
        var i := (s.tail + k) % s.word % s.cap;
        s.(fault := s.fault || s.buf[i].Some?, buf := s.buf[i := Some(items[k])], tx := Move(items, n, k + 1))
      else
        s.(tail := (s.tail + n) % s.word, tx := Ready,
           pushed := s.pushed + items[..Min(n, |items|)])
  }

  // ---- receiver ---------------------------------------------------------------

  function Reserve<V>(s: State<V>, max: nat, cache: nat): State<V>
    requires WellFormed(s)
  {
    var n := Min(Sub(cache, s.head, s.word), max);
    s.(tailCache := cache, rx := if n == 0 then (if s.consumerGone then Closed else Idle) else Moving(n, 0))
  }

  /** Release the moved-out slots with one store of `head`. */
  function CommitHead<V>(s: State<V>, k: nat): State<V>
    requires WellFormed(s)
  {
    s.(head := (s.head + k) % s.word, h := s.h + k, rx := if s.consumerGone then Closing else Idle)
  }

  function ReceiverStep<V>(s: State<V>): (t: State<V>)
    requires WellFormed(s)
    ensures WellFormed(t) && t.cap == s.cap && t.word == s.word
  {
    match s.rx
    case Take(max) =>
      if Sub(s.tailCache, s.head, s.word) == 0 then s.(rx := Reload(max)) else Reserve(s, max, s.tailCache)
    case Reload(max) => Reserve(s, max, s.tail).(tc := |s.pushed|)
    case Moving(n, k) =>
      if k < n then
        var i := (s.head + k) % s.word % s.cap;
        var cell := s.buf[i];
        if cell.None? then s.(fault := true)
        else
          var t := s.(buf := s.buf[i := None], rx := Moving(n, k + 1));
          if s.consumerGone then t.(destroyed := s.destroyed + [cell.value])
          else t.(taken := s.taken + [cell.value])
      else CommitHead(s, k)
    case Probe => s.(rx := if s.producerGone then ProbeTail else Idle)
    case ProbeTail => s.(rx := if s.head == s.tail then Finished else Idle)
    case Closing => s.(rx := Take(1))
    case _ => s
  }

  /** One turn of the teardown walk over [head, tail), run when neither end remains. */
  function FreeStep<V>(s: State<V>): (t: State<V>)
    requires WellFormed(s)
    ensures WellFormed(t) && t.cap == s.cap && t.word == s.word
  {
    if s.head == s.tail then s.(rx := Freed)
    else
      var i := s.head % s.cap;
      var cell := s.buf[i];
      if cell.None? then s.(fault := true)
      else s.(buf := s.buf[i := None], head := (s.head + 1) % s.word, h := s.h + 1, destroyed := s.destroyed + [cell.value])
  }

  function Step<V>(s: State<V>, e: Event<V>): (t: State<V>)
    requires WellFormed(s)
    ensures WellFormed(t) && t.cap == s.cap && t.word == s.word
  {
    match e
    case Push(items) => if s.tx.Ready? then s.(tx := Plan(items)) else s
    case Tx => SenderStep(s)
    case DropSender => if s.tx.Ready? then s.(producerGone := true, tx := Leaving) else s
    case Pop(max) => if s.rx.Idle? then s.(rx := Take(max)) else s
    case Rx => ReceiverStep(s)
    case Unwind => if s.rx.Moving? && s.rx.k > 0 && !s.consumerGone then CommitHead(s, s.rx.k) else s
    case IsFinished => if s.rx.Idle? then s.(rx := Probe) else s
    case Recycle =>
      if s.rx.Finished? && s.tx.Dropped? then
        s.(head := 0, tail := 0, producerGone := false, tailCache := 0, tx := Ready, headCache := 0, rx := Idle,
           pushed := [], taken := [], h := 0, hc := 0, tc := 0, past := s.past + |s.taken|)
      else if s.rx.Finished? then s.(rx := Idle) else s
    case DropReceiver => if s.rx.Idle? then s.(consumerGone := true, rx := Closing) else s
    case Free => if s.rx.Closed? && s.tx.Dropped? then FreeStep(s) else s
  }

  function Run<V>(cap: nat, word: nat, es: seq<Event<V>>): (s: State<V>)
    requires 0 < cap && 2 * cap <= word && word % cap == 0
    ensures WellFormed(s) && s.cap == cap && s.word == word
  {
    if es == [] then Init(cap, word) else Step(Run(cap, word, es[..|es| - 1]), es[|es| - 1])
  }

  // ---- inductive invariant --------------------------------------------------------

  /** Values already moved out of their slots by a drain that has not committed. */
  function Moved(rx: ReceiverPc): nat { if rx.Moving? then rx.k else 0 }
  /** Values already written by a push that has not published. */
  function Wrote<V>(tx: SenderPc<V>): nat { if tx.Move? then tx.k else 0 }

  ghost predicate Counters<V>(s: State<V>) {
    && WellFormed(s)
    && s.head == s.h % s.word && s.tail == |s.pushed| % s.word
    && s.headCache == s.hc % s.word && s.tailCache == s.tc % s.word
    && s.hc <= s.h <= |s.pushed| <= s.hc + s.cap
    && (!s.rx.Closed? && !s.rx.Freed? ==> s.h <= s.tc <= |s.pushed|)
  }

  ghost predicate Pcs<V>(s: State<V>) {
    && (s.tx.Move? ==> s.tx.k <= s.tx.n <= |s.tx.items| && 0 < s.tx.n && |s.pushed| + s.tx.n <= s.hc + s.cap)
    && (s.tx.Refresh? ==> s.tx.items != [])
    && (s.rx.Moving? ==> s.rx.k <= s.rx.n && 0 < s.rx.n && s.h + s.rx.n <= s.tc)
    && (s.producerGone <==> s.tx.Leaving? || s.tx.Dropped?)
    && (s.rx.ProbeTail? ==> s.producerGone)
    && (s.rx.Finished? ==> s.producerGone && s.h == |s.pushed|)
    && (s.rx.Idle? || s.rx.Probe? || s.rx.ProbeTail? || s.rx.Finished? ==> !s.consumerGone)
    && (s.rx.Closing? || s.rx.Closed? || s.rx.Freed? ==> s.consumerGone)
    && (s.rx.Freed? ==> s.tx.Dropped? && s.h == |s.pushed|)
  }

  ghost predicate History<V>(s: State<V>) {
    && !s.fault
    && s.h + Moved(s.rx) <= |s.pushed|
    && s.taken + s.destroyed == s.pushed[..s.h + Moved(s.rx)]
    && (!s.consumerGone ==> s.destroyed == [])
  }

  /** What the slot of position `q` must hold. */
  function Expected<V>(s: State<V>, q: nat): Option<V> {
    if q < |s.pushed| then Some(s.pushed[q])
    else if s.tx.Move? && q - |s.pushed| < s.tx.k && q - |s.pushed| < |s.tx.items| then Some(s.tx.items[q - |s.pushed|])
    else None
  }

  /** The window of one lap that starts at the oldest value still in the ring. */
  ghost predicate Slots<V>(s: State<V>)
    requires WellFormed(s)
  {
    forall q :: s.h + Moved(s.rx) <= q < s.h + Moved(s.rx) + s.cap ==> s.buf[q % s.cap] == Expected(s, q)
  }

  ghost predicate Inv<V>(s: State<V>) {
    Counters(s) && Pcs(s) && History(s) && Slots(s)
  }

  /** Steps that touch neither the slots nor the published range. */
  lemma Still<V>(s: State<V>, t: State<V>)
    requires Inv(s) && Counters(t) && Pcs(t)
    requires t.buf == s.buf && t.cap == s.cap && t.h == s.h && t.pushed == s.pushed && t.fault == s.fault
    requires Moved(t.rx) == Moved(s.rx) && Wrote(t.tx) == Wrote(s.tx) && (Wrote(s.tx) > 0 ==> t.tx == s.tx)
    requires t.taken == s.taken && t.destroyed == s.destroyed && (t.consumerGone == s.consumerGone || t.consumerGone)
    ensures Inv(t)
  {
    assert WellFormed(s);
    hide Counters, Pcs;
  }

  /** The wrapped difference is the true number of occupied slots, as the cache knows it. */
  lemma Used<V>(s: State<V>)
    requires Counters(s)
    ensures Sub(s.tail, s.headCache, s.word) == |s.pushed| - s.hc
    ensures Sub(s.tail, s.head, s.word) == |s.pushed| - s.h
  {
    SubReduced(|s.pushed|, s.hc, s.word);
    SubReduced(|s.pushed|, s.h, s.word);
  }

  lemma Available<V>(s: State<V>)
    requires Counters(s) && !s.rx.Closed? && !s.rx.Freed?
    ensures Sub(s.tailCache, s.head, s.word) == s.tc - s.h
    ensures Sub(s.tail, s.head, s.word) == |s.pushed| - s.h
  {
    SubReduced(s.tc, s.h, s.word);
    SubReduced(|s.pushed|, s.h, s.word);
  }

  // ---- sender steps ---------------------------------------------------------------

  lemma PlanInv<V>(s: State<V>)
    requires Inv(s) && (s.tx.Plan? || s.tx.Refresh? || s.tx.Ready? || s.tx.Leaving? || s.tx.Dropped?)
    ensures Inv(SenderStep(s))
  {
    Used(s);
    hide Sub, History, Slots;
    Still(s, SenderStep(s));
  }

  /** Slot addressing by the wrapped counter agrees with the unwrapped position. */
  lemma SlotAt<V>(s: State<V>, c: nat, n: nat, k: nat)
    requires WellFormed(s) && c == n % s.word
    ensures (c + k) % s.word % s.cap == (n + k) % s.cap
  {
    AddReduced(n, k, s.word);
    SlotReduced(n + k, s.word, s.cap);
  }

  lemma WriteInv<V>(s: State<V>)
    requires Inv(s) && s.tx.Move? && s.tx.k < s.tx.n
    ensures Inv(SenderStep(s))
  {
    var t := SenderStep(s);
    var w := |s.pushed| + s.tx.k;
    SlotAt(s, s.tail, |s.pushed|, s.tx.k);
    var base := s.h + Moved(s.rx);
    assert s.buf[w % s.cap] == Expected(s, w);
    forall q | base <= q < base + s.cap ensures t.buf[q % s.cap] == Expected(t, q) {
      assert s.buf[q % s.cap] == Expected(s, q);
      if q < w { DistinctSlots(q, w, s.cap); }
      if w < q { DistinctSlots(w, q, s.cap); }
    }
  }

  lemma PublishInv<V>(s: State<V>)
    requires Inv(s) && s.tx.Move? && s.tx.k == s.tx.n
    ensures Inv(SenderStep(s))
  {
    var t := SenderStep(s);
    AddReduced(|s.pushed|, s.tx.n, s.word);
    var base := s.h + Moved(s.rx);
    forall q | base <= q < base + s.cap ensures t.buf[q % s.cap] == Expected(t, q) {
      assert s.buf[q % s.cap] == Expected(s, q);
    }
    assert t.pushed[..base] == s.pushed[..base];
  }

  // ---- receiver steps -------------------------------------------------------------

  lemma ReserveInv<V>(s: State<V>)
    requires Inv(s) && (s.rx.Take? || s.rx.Reload?)
    ensures Inv(ReceiverStep(s))
  {
    Available(s);
    hide Sub, History, Slots;
    Still(s, ReceiverStep(s));
  }

  lemma TakeInv<V>(s: State<V>)
    requires Inv(s) && !s.rx.Moving?
    ensures Inv(ReceiverStep(s))
  {
    if s.rx.Take? || s.rx.Reload? {
      ReserveInv(s);
    } else {
      if s.rx.ProbeTail? { EqualReduced(|s.pushed|, s.h, s.word); }
      hide Sub, History, Slots, Reserve;
      Still(s, ReceiverStep(s));
    }
  }

  /** Emptying the oldest slot moves the window on by one. */
  lemma SlotsShift<V>(s: State<V>, t: State<V>, q: nat)
    requires Counters(s) && Pcs(s) && Slots(s) && q == s.h + Moved(s.rx) < |s.pushed|
    requires t.cap == s.cap && t.buf == s.buf[q % s.cap := None] && t.pushed == s.pushed && t.tx == s.tx
    requires t.h + Moved(t.rx) == q + 1
    ensures WellFormed(s) && |t.buf| == t.cap && forall p :: q + 1 <= p < q + 1 + t.cap ==> t.buf[p % t.cap] == Expected(t, p)
  {
    forall p | q + 1 <= p < q + 1 + s.cap ensures t.buf[p % s.cap] == Expected(t, p) {
      if p < q + s.cap {
        DistinctSlots(q, p, s.cap);
        assert s.buf[p % s.cap] == Expected(s, p);
      } else {
        SameSlot(q, s.cap);
      }
    }
  }

  lemma MoveOutInv<V>(s: State<V>)
    requires Inv(s) && s.rx.Moving? && s.rx.k < s.rx.n
    ensures Inv(ReceiverStep(s))
  {
    var t := ReceiverStep(s);
    var q := s.h + s.rx.k;
    SlotAt(s, s.head, s.h, s.rx.k);
    assert s.buf[q % s.cap] == Expected(s, q) == Some(s.pushed[q]);
    SlotsShift(s, t, q);
    assert s.pushed[..q] + [s.pushed[q]] == s.pushed[..q + 1];
    if s.consumerGone {
      assert s.taken + (s.destroyed + [s.pushed[q]]) == s.taken + s.destroyed + [s.pushed[q]];
    } else {
      assert s.taken + [s.pushed[q]] + [] == s.taken + s.destroyed + [s.pushed[q]];
    }
  }

  lemma CommitInv<V>(s: State<V>)
    requires Inv(s) && s.rx.Moving?
    ensures Inv(CommitHead(s, s.rx.k))
  {
    var t := CommitHead(s, s.rx.k);
    AddReduced(s.h, s.rx.k, s.word);
    assert forall q :: Expected(t, q) == Expected(s, q);
  }

  lemma FreeInv<V>(s: State<V>)
    requires Inv(s) && s.rx.Closed? && s.tx.Dropped?
    ensures Inv(FreeStep(s))
  {
    var t := FreeStep(s);
    EqualReduced(|s.pushed|, s.h, s.word);
    if s.head != s.tail {
      SlotAt(s, s.head, s.h, 0);
      AddReduced(s.h, 1, s.word);
      assert s.buf[s.h % s.cap] == Expected(s, s.h) == Some(s.pushed[s.h]);
      SlotReduced(s.h, s.word, s.cap);
      SlotsShift(s, t, s.h);
      assert s.taken + (s.destroyed + [s.pushed[s.h]]) == s.pushed[..s.h] + [s.pushed[s.h]];
    }
  }

  lemma RecycleInv<V>(s: State<V>)
    requires Inv(s) && s.rx.Finished? && s.tx.Dropped?
    ensures Inv(Step(s, Recycle))
    ensures s.taken == s.pushed
  {
    DrainedSlots(s);
    assert s.taken + [] == s.taken;
    var t := Step(s, Recycle);
    assert Counters(t) && Pcs(t) && History(t);
    hide Counters, Pcs, History;
    assert Slots(t);
  }

  lemma DrainedSlots<V>(s: State<V>)
    requires Inv(s) && s.rx.Finished? && s.tx.Dropped?
    ensures forall i :: 0 <= i < |s.buf| ==> s.buf[i] == None
  {
    forall i | 0 <= i < s.cap ensures s.buf[i] == None {
      var q := LapCovers(s.h, i, s.cap);
      assert s.buf[q % s.cap] == Expected(s, q);
    }
  }

  /** Calls, and the receiver's drop, touch no slot. */
  lemma CallInv<V>(s: State<V>, e: Event<V>)
    requires Inv(s) && !e.Tx? && !e.Rx? && !e.Unwind? && !e.Free? && !(e.Recycle? && s.rx.Finished? && s.tx.Dropped?)
    ensures Inv(Step(s, e))
  {
    hide Slots, History;
    Still(s, Step(s, e));
  }

  lemma StepInv<V>(s: State<V>, e: Event<V>)
    requires Inv(s)
    ensures Inv(Step(s, e))
  {
    assert WellFormed(s);
    hide Inv, SenderStep, ReceiverStep;
    match e {
      case Tx =>
        if s.tx.Move? && s.tx.k < s.tx.n { WriteInv(s); }
        else if s.tx.Move? { PublishInv(s); }
        else { PlanInv(s); }
      case Rx =>
        if s.rx.Moving? && s.rx.k < s.rx.n { MoveOutInv(s); }
        else if s.rx.Moving? { CommitInv(s); }
        else { TakeInv(s); }
      case Unwind => if s.rx.Moving? { CommitInv(s); }
      case Free => if s.rx.Closed? && s.tx.Dropped? { FreeInv(s); }
      case Recycle => if s.rx.Finished? && s.tx.Dropped? { RecycleInv(s); } else { CallInv(s, e); }
      case _ => CallInv(s, e);
    }
  }

  lemma {:induction false} RunInv<V>(cap: nat, word: nat, es: seq<Event<V>>)
    requires 0 < cap && 2 * cap <= word && word % cap == 0
    ensures Inv(Run(cap, word, es))
  {
    if es != [] {
      RunInv(cap, word, es[..|es| - 1]);
      StepInv(Run(cap, word, es[..|es| - 1]), es[|es| - 1]);
    }
  }

  // ---- what every run guarantees ----------------------------------------------------

  /** The values handed out, then those destroyed by the receiver's drop, are in order a prefix
      of the values published; at most `cap` are in the ring; no slot is ever read empty or
      overwritten full. */
  lemma Fifo<V>(cap: nat, word: nat, es: seq<Event<V>>)
    requires 0 < cap && 2 * cap <= word && word % cap == 0
    ensures var s := Run(cap, word, es);
      && !s.fault
      && s.taken + s.destroyed <= s.pushed
      && |s.pushed| <= |s.taken + s.destroyed| + cap
      && (!s.consumerGone ==> s.destroyed == [])
  {
    RunInv(cap, word, es);
  }

  /** Every published value is handed out or destroyed exactly once, for every race between a
      push and the receiver's drop and every unwinding drain. */
  lemma OwnedOnce<V>(cap: nat, word: nat, es: seq<Event<V>>)
    requires 0 < cap && 2 * cap <= word && word % cap == 0
    requires Run(cap, word, es).rx.Freed?
    ensures var s := Run(cap, word, es); s.taken + s.destroyed == s.pushed
  {
    RunInv(cap, word, es);
    var s := Run(cap, word, es);
    assert s.pushed[..|s.pushed|] == s.pushed;
  }

  /** A push is refused only for an empty request, or when the reloaded head shows a full ring. */
  lemma RefusedOnlyWhenFull<V>(cap: nat, word: nat, es: seq<Event<V>>)
    requires 0 < cap && 2 * cap <= word && word % cap == 0
    ensures var s := Run(cap, word, es);
      && (s.tx.Plan? && s.tx.items != [] ==> !SenderStep(s).tx.Ready?)
      && (s.tx.Refresh? ==> (SenderStep(s).tx.Ready? <==> |s.pushed| == s.h + cap))
      && (s.tx.Refresh? && |s.pushed| < s.h + cap ==>
            SenderStep(s).tx == Move(s.tx.items, Min(|s.tx.items|, s.h + cap - |s.pushed|), 0))
  {
    hide Run, Inv, SenderStep;
    RunInv(cap, word, es);
    RefusedAt(Run(cap, word, es));
  }

  lemma RefusedAt<V>(s: State<V>)
    requires Inv(s)
    ensures s.tx.Plan? && s.tx.items != [] ==> !SenderStep(s).tx.Ready?
    ensures s.tx.Refresh? ==> (SenderStep(s).tx.Ready? <==> |s.pushed| == s.h + s.cap)
    ensures s.tx.Refresh? && |s.pushed| < s.h + s.cap ==>
      SenderStep(s).tx == Move(s.tx.items, Min(|s.tx.items|, s.h + s.cap - |s.pushed|), 0)
  {
    hide Slots, History, Sub;
    Used(s);
  }

  /** A pop finds nothing only when the reloaded tail shows an empty ring. */
  lemma EmptyOnlyWhenEmpty<V>(cap: nat, word: nat, es: seq<Event<V>>)
    requires 0 < cap && 2 * cap <= word && word % cap == 0
    ensures var s := Run(cap, word, es);
      && (s.rx.Reload? && s.rx.max > 0 ==> (ReceiverStep(s).rx.Moving? <==> s.h < |s.pushed|))
      && (s.rx.Reload? && s.h < |s.pushed| && s.rx.max > 0 ==>
            ReceiverStep(s).rx == Moving(Min(|s.pushed| - s.h, s.rx.max), 0))
  {
    RunInv(cap, word, es);
    hide Run;
    var s := Run(cap, word, es);
    if s.rx.Reload? { ReloadAt(s); }
  }

  lemma ReloadAt<V>(s: State<V>)
    requires Inv(s) && s.rx.Reload?
    ensures s.rx.max > 0 ==> (ReceiverStep(s).rx.Moving? <==> s.h < |s.pushed|)
    ensures s.h < |s.pushed| && s.rx.max > 0 ==> ReceiverStep(s).rx == Moving(Min(|s.pushed| - s.h, s.rx.max), 0)
  {
    hide Slots, History, Sub;
    Available(s);
  }

  /** Recycling happens only after every value of the epoch has been handed out. */
  lemma RecycleOnlyDrained<V>(cap: nat, word: nat, es: seq<Event<V>>)
    requires 0 < cap && 2 * cap <= word && word % cap == 0
    requires Run(cap, word, es).rx.Finished? && Run(cap, word, es).tx.Dropped?
    ensures var s := Run(cap, word, es);
      s.taken == s.pushed && s.producerGone && Step(s, Recycle).buf == s.buf && forall i :: 0 <= i < cap ==> s.buf[i] == None
  {
    RunInv(cap, word, es);
    var s := Run(cap, word, es);
    hide Run;
    RecycleInv(s);
    DrainedSlots(s);
  }

  // ---- bulk moves as two spans ------------------------------------------------------

  /** The slots after the sender's single steps have written `items` from position `start` on. */
  function WriteAll<V>(buf: seq<Option<V>>, start: nat, items: seq<V>): (r: seq<Option<V>>)
    requires |buf| > 0
    ensures |r| == |buf|
    decreases |items|
  {
    if items == [] then buf
    else
      var rest := WriteAll(buf, start, items[..|items| - 1]);
      rest[(start + |items| - 1) % |buf| := Some(items[|items| - 1])]
  }

  /** At most one lap of items lands at distinct slots and leaves the others alone. */
  lemma {:induction false} WriteAllAt<V>(buf: seq<Option<V>>, start: nat, items: seq<V>, k: nat)
    requires |items| <= |buf| && k < |buf|
    ensures WriteAll(buf, start, items)[(start + k) % |buf|] == if k < |items| then Some(items[k]) else buf[(start + k) % |buf|]
    decreases |items|
  {
    if items != [] {
      WriteAllAt(buf, start, items[..|items| - 1], k);
      var last := |items| - 1;
      if k < last { DistinctSlots(start + k, start + last, |buf|); }
      if last < k { DistinctSlots(start + last, start + k, |buf|); }
    }
  }

  /** The slots after the receiver's single steps have emptied `n` of them from position `start` on. */
  function EmptyAll<V>(buf: seq<Option<V>>, start: nat, n: nat): (r: seq<Option<V>>)
    requires |buf| > 0
    ensures |r| == |buf|
  {
    if n == 0 then buf else EmptyAll(buf, start, n - 1)[(start + n - 1) % |buf| := None]
  }

  lemma {:induction false} EmptyAllAt<V>(buf: seq<Option<V>>, start: nat, n: nat, k: nat)
    requires n <= |buf| && k < |buf|
    ensures EmptyAll(buf, start, n)[(start + k) % |buf|] == if k < n then None else buf[(start + k) % |buf|]
    decreases n
  {
    if n > 0 {
      EmptyAllAt(buf, start, n - 1, k);
      if k < n - 1 { DistinctSlots(start + k, start + n - 1, |buf|); }
      if n - 1 < k { DistinctSlots(start + n - 1, start + k, |buf|); }
    }
  }

  /** The slot of position `start + k`. */
  function Cell<V>(buf: seq<Option<V>>, start: nat, k: nat): Option<V>
    requires |buf| > 0
  {
    buf[(start + k) % |buf|]
  }

  /** The next `n` positions hold values. */
  predicate Filled<V>(buf: seq<Option<V>>, start: nat, n: nat)
    requires |buf| > 0
  {
    forall k :: 0 <= k < n ==> Cell(buf, start, k).Some?
  }

  /** Those values, in order. */
  function Held<V>(buf: seq<Option<V>>, start: nat, n: nat): (r: seq<V>)
    requires |buf| > 0 && Filled(buf, start, n)
    ensures |r| == n
  {
    seq(n, k requires 0 <= k < n => Cell(buf, start, k).value)
  }

  /** `n` events in a row. */
  function Again<V>(s: State<V>, e: Event<V>, n: nat): (t: State<V>)
    requires WellFormed(s)
    ensures WellFormed(t) && t.cap == s.cap && t.word == s.word
  {
    if n == 0 then s else Step(Again(s, e, n - 1), e)
  }

  lemma AgainNext<V>(s: State<V>, e: Event<V>, k: nat)
    requires WellFormed(s) && k > 0
    ensures Again(s, e, k) == Step(Again(s, e, k - 1), e)
  {
    hide Step;
  }

  lemma OneIn<V>(t: State<V>, items: seq<V>, n: nat, k: nat)
    requires WellFormed(t) && t.tx == Move(items, n, k) && k < n <= |items|
    ensures Step(t, Tx) == t.(buf := t.buf[(t.tail + k) % t.cap := Some(items[k])], tx := Move(items, n, k + 1), fault := Step(t, Tx).fault)
  {
    SlotReduced(t.tail + k, t.word, t.cap);
  }

  lemma WriteNext<V>(buf: seq<Option<V>>, start: nat, items: seq<V>, k: nat)
    requires |buf| > 0 && 0 < k <= |items|
    ensures WriteAll(buf, start, items[..k]) == WriteAll(buf, start, items[..k - 1])[(start + k - 1) % |buf| := Some(items[k - 1])]
  {
    assert items[..k][..k - 1] == items[..k - 1];
  }

  /** `k` single steps of a push write exactly the slots that `WriteAll` says. */
  lemma {:induction false} PushSteps<V>(s: State<V>, items: seq<V>, n: nat, k: nat)
    requires WellFormed(s) && s.tx == Move(items, n, 0) && k <= n <= |items|
    ensures var t := Again(s, Tx, k);
      t == s.(buf := WriteAll(s.buf, s.tail, items[..k]), tx := Move(items, n, k), fault := t.fault)
  {
    if k > 0 {
      hide Step, Again, WriteAll;
      PushSteps(s, items, n, k - 1);
      AgainNext(s, Tx, k);
      OneIn(Again(s, Tx, k - 1), items, n, k - 1);
      WriteNext(s.buf, s.tail, items, k);
    }
  }

  lemma OneOut<V>(t: State<V>, n: nat, k: nat, v: V)
    requires WellFormed(t) && t.rx == Moving(n, k) && k < n && !t.consumerGone && Cell(t.buf, t.head, k) == Some(v)
    ensures Step(t, Rx) == t.(buf := t.buf[(t.head + k) % t.cap := None], rx := Moving(n, k + 1), taken := t.taken + [v])
  {
    SlotReduced(t.head + k, t.word, t.cap);
  }

  lemma EmptyNext<V>(buf: seq<Option<V>>, start: nat, n: nat, k: nat)
    requires 0 < k <= n <= |buf| && Filled(buf, start, n)
    ensures Cell(EmptyAll(buf, start, k - 1), start, k - 1) == Some(Held(buf, start, n)[k - 1])
    ensures EmptyAll(buf, start, k) == EmptyAll(buf, start, k - 1)[(start + k - 1) % |buf| := None]
  {
    EmptyAllAt(buf, start, k - 1, k - 1);
    assert Cell(buf, start, k - 1).Some?;
  }

  lemma Regrow<V>(a: seq<V>, out: seq<V>, k: nat)
    requires 0 < k <= |out|
    ensures a + out[..k] == (a + out[..k - 1]) + [out[k - 1]]
  {
  }

  /** `k` single steps of a drain hand out exactly the next values and empty exactly their slots. */
  lemma {:induction false} DrainSteps<V>(s: State<V>, n: nat, k: nat)
    requires WellFormed(s) && s.rx == Moving(n, 0) && !s.consumerGone && k <= n <= s.cap && Filled(s.buf, s.head, n)
    ensures Again(s, Rx, k) == s.(buf := EmptyAll(s.buf, s.head, k), rx := Moving(n, k), taken := s.taken + Held(s.buf, s.head, n)[..k])
  {
    hide Step, Again, EmptyAll, Held, Filled, Cell;
    if k > 0 {
      DrainSteps(s, n, k - 1);
      AgainNext(s, Rx, k);
      EmptyNext(s.buf, s.head, n, k);
      OneOut(Again(s, Rx, k - 1), n, k - 1, Held(s.buf, s.head, n)[k - 1]);
      Regrow(s.taken, Held(s.buf, s.head, n), k);
    } else {
      NoSteps(s);
      assert s.taken + Held(s.buf, s.head, n)[..0] == s.taken;
    }
  }

  lemma NoSteps<V>(s: State<V>)
    requires WellFormed(s)
    ensures Again(s, Rx, 0) == s && EmptyAll(s.buf, s.head, 0) == s.buf
  {
    hide Step;
  }

  lemma PositionHolds<V>(s: State<V>, k: nat)
    requires Inv(s) && s.rx.Moving? && s.rx.k == 0 && k < s.rx.n
    ensures s.h + k < |s.pushed| && Cell(s.buf, s.head, k) == Some(s.pushed[s.h + k])
  {
    hide History;
    SlotAt(s, s.head, s.h, k);
    SlotReduced(s.head + k, s.word, s.cap);
    assert s.buf[(s.h + k) % s.cap] == Expected(s, s.h + k);
  }

  /** In every run a drain that starts moving finds its slots filled, with the next values pushed. */
  lemma DrainFilled<V>(cap: nat, word: nat, es: seq<Event<V>>, n: nat)
    requires 0 < cap && 2 * cap <= word && word % cap == 0 && Run(cap, word, es).rx == Moving(n, 0)
    ensures var s := Run(cap, word, es);
      n <= cap && s.h + n <= |s.pushed| && Filled(s.buf, s.head, n) && Held(s.buf, s.head, n) == s.pushed[s.h..s.h + n]
  {
    hide Run, Cell;
    RunInv(cap, word, es);
    var s := Run(cap, word, es);
    assert Counters(s) && Pcs(s);
    hide Slots, History;
    forall k | 0 <= k < n ensures Cell(s.buf, s.head, k) == Some(s.pushed[s.h + k]) { PositionHolds(s, k); }
  }

  /** Bulk moves refine single steps: in every run, the whole of a push writes `WriteAll` and the whole of a drain hands out
      the next values pushed and leaves their slots empty. `CopySpans` and `DrainSpans` compute the same in two copies. */
  lemma BulkIsSteps<V>(cap: nat, word: nat, es: seq<Event<V>>)
    requires 0 < cap && 2 * cap <= word && word % cap == 0
    ensures var s := Run(cap, word, es); s.tx.Move? && s.tx.k == 0 ==>
      s.tx.n <= |s.tx.items| && Again(s, Tx, s.tx.n).buf == WriteAll(s.buf, s.tail, s.tx.items[..s.tx.n])
    ensures var s := Run(cap, word, es); s.rx.Moving? && s.rx.k == 0 && !s.consumerGone ==>
      && s.h + s.rx.n <= |s.pushed|
      && Again(s, Rx, s.rx.n).buf == EmptyAll(s.buf, s.head, s.rx.n)
      && Again(s, Rx, s.rx.n).taken == s.taken + s.pushed[s.h..s.h + s.rx.n]
  {
    RunInv(cap, word, es);
    var s := Run(cap, word, es);
    if s.tx.Move? && s.tx.k == 0 { PushSteps(s, s.tx.items, s.tx.n, s.tx.n); }
    if s.rx.Moving? && s.rx.k == 0 && !s.consumerGone {
      var n := s.rx.n;
      DrainFilled(cap, word, es, n);
      DrainSteps(s, n, n);
      assert Held(s.buf, s.head, n)[..n] == Held(s.buf, s.head, n);
    }
    hide Run, Again, Slots, History;
  }

  /** `push_from`: at most two contiguous copies do what the single steps do. */
  method CopySpans<V>(buf: array<Option<V>>, tail: nat, items: seq<V>)
    requires 0 < buf.Length && |items| <= buf.Length
    modifies buf
    ensures buf[..] == WriteAll(old(buf[..]), tail, items)
  {
    var cap, n := buf.Length, |items|;
    var start := tail % cap;
    var first := Min(n, cap - start);
    forall k | 0 <= k < first { buf[start + k] := Some(items[k]); }
    if first != n {
      forall k | 0 <= k < n - first { buf[k] := Some(items[first + k]); }
    }
    ghost var was := old(buf[..]);
    forall i | 0 <= i < cap ensures buf[i] == WriteAll(was, tail, items)[i] {
      var k := if i >= start then i - start else i + cap - start;
      SpanIndex(tail, k, cap);
      WriteAllAt(was, tail, items, k);
    }
  }

  /** Where position `start + k` lands when `start` is reduced: in the first span, or wrapped into the second. */
  lemma SpanIndex(position: nat, k: nat, cap: nat)
    requires k < cap
    ensures var start := position % cap; (position + k) % cap == if k < cap - start then start + k else start + k - cap
  {
    var start := position % cap;
    AddReduced(position, k, cap);
    if k < cap - start { DivMod(start + k, 0, start + k, cap); } else { DivMod(start + k, 1, start + k - cap, cap); }
  }

  /** Both spans are filled when the positions are. */
  lemma SpansFilled<V>(buf: seq<Option<V>>, head: nat, n: nat, i: nat)
    requires 0 < |buf| && n <= |buf| && Filled(buf, head, n) && i < |buf|
    requires var start := head % |buf|; start <= i < start + n || i + |buf| < start + n
    ensures buf[i].Some?
  {
    var start := head % |buf|;
    var k := if i >= start then i - start else i + |buf| - start;
    SpanIndex(head, k, |buf|);
    assert Cell(buf, head, k).Some?;
  }

  /** `drain_into`: at most two contiguous copies hand out the values of the next `n` positions; their slots are then vacant. */
  method DrainSpans<V>(buf: array<Option<V>>, head: nat, n: nat) returns (out: seq<V>)
    requires 0 < buf.Length && n <= buf.Length && Filled(buf[..], head, n)
    modifies buf
    ensures out == Held(old(buf[..]), head, n)
    ensures buf[..] == EmptyAll(old(buf[..]), head, n)
  {
    var cap := buf.Length;
    ghost var was := buf[..];
    var start := head % cap;
    var first := Min(n, cap - start);
    forall i | (start <= i < start + first) || (0 <= i < n - first) ensures buf[i].Some? { SpansFilled(was, head, n, i); }
    out := Batch.Values(buf[start..start + first]);
    if first != n { out := out + Batch.Values(buf[..n - first]); }
    forall k | 0 <= k < n ensures out[k] == Cell(was, head, k).value { SpanIndex(head, k, cap); }
    forall k | 0 <= k < first { buf[start + k] := None; }
    if first != n {
      forall k | 0 <= k < n - first { buf[k] := None; }
    }
    forall i | 0 <= i < cap ensures buf[i] == EmptyAll(was, head, n)[i] {
      var k := if i >= start then i - start else i + cap - start;
      SpanIndex(head, k, cap);
      EmptyAllAt(was, head, n, k);
    }
  }
}
