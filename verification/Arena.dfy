/** One descriptor ring with its `data_ready` event: the producer publishes a frame and notifies,
    the consumer pops or parks. The event word keeps only the low 32 bits of the cursor.

    `latching` tells the two kinds of parking primitive apart: a named FIFO or an event object
    remembers a wake that finds nobody asleep, a futex does not (but compares the word first). */
module Arena {
  import opened Wrappers
  import Arith

  const WORD32: nat := 0x1_0000_0000

  /** `push`: check for room, copy the frame, store the tail, then `notify`. */
  datatype ProducerPc<F> = Quiet | Load(f: F) | Copy(f: F) | StoreTail(f: F) | StoreSequence | SwapWaiters | Wake

  /** `pop`: check, observe, recheck, then `wait` (check, register, confirm, park, unregister). */
  datatype ConsumerPc<F> =
    | Idle | Look | Observe | Recheck(o: nat) | Compare(o: nat) | Register(o: nat) | Confirm(o: nat) | Park(o: nat)
    | Asleep(o: nat) | Unregister | Take | StoreHead(f: F)

  datatype State<F> = State(
    latching: bool, cap: nat, ring: seq<Option<F>>, head: nat, tail: nat,
    sequence: nat, waiters: bool, token: bool,
    p: ProducerPc<F>, c: ConsumerPc<F>,
    pushed: seq<F>, popped: seq<F>,   // history
    stored: nat,                      // history: the whole cursor behind `sequence`
    observed: nat,                    // history: the whole cursor the consumer last observed
    clear: bool,                      // history: no notify was mid-way when the consumer registered
    fault: bool)                      // a second waiter, or an unwritten descriptor was read

  datatype Event<F> = Push(f: F) | Pop | P | C | Timeout

  function Init<F>(latching: bool, cap: nat): State<F> {
    State(latching, cap, seq(cap, _ => None), 0, 0, 0, false, false, Quiet, Idle, [], [], 0, 0, true, false)
  }

  function ProducerStep<F>(s: State<F>): (t: State<F>)
    requires 0 < s.cap == |s.ring|
    ensures t.cap == s.cap == |t.ring| && t.latching == s.latching
  {
    match s.p
    case Quiet => s
    case Load(f) => if s.tail < s.head + s.cap then s.(p := Copy(f)) else s
    case Copy(f) => s.(ring := s.ring[s.tail % s.cap := Some(f)], p := StoreTail(f))
    case StoreTail(f) => s.(tail := s.tail + 1, pushed := s.pushed + [f], p := StoreSequence)
    case StoreSequence => s.(sequence := s.tail % WORD32, stored := s.tail, p := SwapWaiters)
    case SwapWaiters => s.(waiters := false, p := if s.waiters then Wake else Quiet)
    case Wake =>
      if s.latching then s.(token := true, p := Quiet)
      else s.(c := if s.c.Asleep? then Unregister else s.c, p := Quiet)
  }

  function ConsumerStep<F>(s: State<F>): (t: State<F>)
    requires 0 < s.cap == |s.ring|
    ensures t.cap == s.cap == |t.ring| && t.latching == s.latching
  {
    match s.c
    case Idle => s
    case Look => s.(c := if s.tail != s.head then Take else Observe)
    case Observe => s.(observed := s.stored, c := Recheck(s.sequence))
    case Recheck(o) => s.(c := if s.tail != s.head then Take else Compare(o))
    case Compare(o) => s.(c := if s.sequence != o then Look else Register(o))
    case Register(o) =>
      s.(waiters := true, fault := s.fault || s.waiters, clear := !s.p.SwapWaiters?, c := Confirm(o))
    case Confirm(o) => s.(c := if s.sequence != o then Unregister else Park(o))
    case Park(o) =>
      if s.latching then (if s.token then s.(token := false, c := Unregister) else s.(c := Asleep(o)))
      else s.(c := if s.sequence != o then Unregister else Asleep(o))
    case Asleep(_) => if s.latching && s.token then s.(token := false, c := Unregister) else s
    case Unregister => s.(waiters := false, c := Look)
    case Take =>
      var cell := s.ring[s.head % s.cap];
      if cell.None? then s.(fault := true) else s.(c := StoreHead(cell.value))
    case StoreHead(f) => s.(head := s.head + 1, popped := s.popped + [f], c := Idle)
  }

  function Step<F>(s: State<F>, e: Event<F>): (t: State<F>)
    requires 0 < s.cap == |s.ring|
    ensures t.cap == s.cap == |t.ring| && t.latching == s.latching
  {
    match e
    case Push(f) => if s.p.Quiet? then s.(p := Load(f)) else s
    case Pop => if s.c.Idle? then s.(c := Look) else s
    case P => ProducerStep(s)
    case C => ConsumerStep(s)
    case Timeout => if s.c.Asleep? then s.(c := Unregister) else s
  }

  function Resume<F>(s: State<F>, es: seq<Event<F>>): (t: State<F>)
    requires 0 < s.cap == |s.ring|
    ensures t.cap == s.cap == |t.ring| && t.latching == s.latching
    decreases |es|
  {
    if es == [] then s else Resume(Step(s, es[0]), es[1..])
  }

  function Run<F>(latching: bool, cap: nat, es: seq<Event<F>>): (s: State<F>)
    requires cap > 0
    ensures s.cap == cap == |s.ring| && s.latching == latching
  {
    Resume(Init(latching, cap), es)
  }

  // ---- inductive invariant --------------------------------------------------------

  ghost predicate RingInv<F>(s: State<F>) {
    && 0 < s.cap == |s.ring|
    && s.head <= s.tail <= s.head + s.cap
    && |s.pushed| == s.tail && s.popped == s.pushed[..s.head]
    && (forall q :: s.head <= q < s.tail ==> s.ring[q % s.cap] == Some(s.pushed[q]))
    && (s.p.Copy? || s.p.StoreTail? ==> s.tail < s.head + s.cap)
    && (s.p.StoreTail? ==> s.ring[s.tail % s.cap] == Some(s.p.f))
    && (s.c.Take? || s.c.StoreHead? ==> s.head < s.tail)
    && (s.c.StoreHead? ==> s.c.f == s.pushed[s.head])
  }

  predicate Registered<F>(c: ConsumerPc<F>) { c.Confirm? || c.Park? || c.Asleep? }
  predicate Waiting<F>(c: ConsumerPc<F>) { c.Compare? || c.Register? || Registered(c) }
  predicate Committed<F>(c: ConsumerPc<F>) { c.Park? || c.Asleep? }

  ghost predicate EventInv<F>(s: State<F>) {
    && !s.fault
    && s.sequence == s.stored % WORD32
    && (if s.p.StoreSequence? then s.stored + 1 == s.tail else s.stored == s.tail)
    && (s.waiters ==> Registered(s.c) || s.c.Unregister?)
    && (s.c.Recheck? || Waiting(s.c) ==>
          && s.c.o == s.observed % WORD32
          && s.observed <= s.stored
          && s.head <= s.observed + 1)
    && (Waiting(s.c) ==> s.observed <= s.head)
    && (Committed(s.c) && s.waiters && s.stored != s.observed ==> s.p.SwapWaiters?)
    && (s.latching && Registered(s.c) && !s.waiters ==> s.token || s.p.Wake?)
    && (!s.latching && s.clear && Registered(s.c) && s.p.SwapWaiters? ==> s.stored != s.observed)
    && (!s.latching && s.clear && Registered(s.c) && !s.waiters ==> s.stored != s.observed)
    && (!s.latching && s.clear && s.c.Asleep? && !s.waiters ==> s.p.Wake?)
  }

  ghost predicate Inv<F>(s: State<F>) {
    RingInv(s) && EventInv(s) && s.cap <= 0x8000_0000
  }

  /** Less than 2^32 publications apart, the truncated word returns to the observed value only if the
      cursor behind it has not moved. */
  lemma SameWord(a: nat, b: nat)
    requires a <= b < a + WORD32
    ensures a % WORD32 == b % WORD32 <==> a == b
  {
    Arith.EqualReduced(b, a, WORD32);
  }

  lemma CopyRing<F>(s: State<F>)
    requires RingInv(s) && s.p.Copy?
    ensures RingInv(ProducerStep(s))
  {
    forall q | s.head <= q < s.tail ensures q % s.cap != s.tail % s.cap {
      Arith.DistinctSlots(q, s.tail, s.cap);
    }
  }

  lemma PublishRing<F>(s: State<F>)
    requires RingInv(s) && s.p.StoreTail?
    ensures RingInv(ProducerStep(s))
  {
    var t := ProducerStep(s);
    assert t.popped == t.pushed[..t.head];
  }

  /** Steps that touch neither the ring nor its cursors. */
  lemma SameRing<F>(s: State<F>, t: State<F>)
    requires RingInv(s)
    requires t.cap == s.cap && t.ring == s.ring && t.head == s.head && t.tail == s.tail && t.pushed == s.pushed && t.popped == s.popped
    requires t.p == s.p || !(t.p.Copy? || t.p.StoreTail?) || (t.p.Copy? && s.tail < s.head + s.cap)
    requires t.c == s.c || !(t.c.Take? || t.c.StoreHead?) || (t.c.Take? && s.head < s.tail)
          || (t.c.StoreHead? && s.c.Take? && s.ring[s.head % s.cap] == Some(t.c.f))
    ensures RingInv(t)
  {
  }

  lemma ProducerRing<F>(s: State<F>)
    requires RingInv(s)
    ensures RingInv(ProducerStep(s))
  {
    assert 0 < s.cap == |s.ring|;
    hide RingInv;
    if s.p.Copy? { CopyRing(s); }
    else if s.p.StoreTail? { PublishRing(s); }
    else {
      ProducerAside(s);
      hide ProducerStep;
      SameRing(s, ProducerStep(s));
    }
  }

  lemma ProducerAside<F>(s: State<F>)
    requires 0 < s.cap == |s.ring| && !s.p.Copy? && !s.p.StoreTail?
    ensures ProducerStep(s).ring == s.ring && ProducerStep(s).head == s.head && ProducerStep(s).tail == s.tail
    ensures ProducerStep(s).pushed == s.pushed && ProducerStep(s).popped == s.popped
    ensures var p := ProducerStep(s).p; p == s.p || !(p.Copy? || p.StoreTail?) || (p.Copy? && s.tail < s.head + s.cap)
    ensures ProducerStep(s).c == s.c || ProducerStep(s).c.Unregister?
  {
    var t := ProducerStep(s);
    if s.p.Load? || s.p.Quiet? {
      assert t == s.(p := t.p);
    } else if s.p.Wake? {
      assert t == s.(token := t.token, c := t.c, p := t.p);
    } else {
      assert t == s.(sequence := t.sequence, stored := t.stored, waiters := t.waiters, p := t.p);
    }
  }

  lemma ReleaseRing<F>(s: State<F>)
    requires RingInv(s) && s.c.StoreHead?
    ensures RingInv(ConsumerStep(s))
  {
    var t := ConsumerStep(s);
    assert t.popped == t.pushed[..t.head];
  }

  lemma ConsumerRing<F>(s: State<F>)
    requires RingInv(s)
    ensures RingInv(ConsumerStep(s))
  {
    assert 0 < s.cap == |s.ring|;
    hide RingInv;
    if s.c.StoreHead? { ReleaseRing(s); }
    else if s.c.Look? || s.c.Recheck? || s.c.Take? { LookRing(s); }
    else {
      ConsumerAside(s);
      hide ConsumerStep;
      SameRing(s, ConsumerStep(s));
    }
  }

  /** Everything a consumer step leaves alone while it only looks or waits. */
  ghost predicate Aside<F>(s: State<F>, t: State<F>) {
    && t.cap == s.cap && t.ring == s.ring && t.head == s.head && t.tail == s.tail && t.pushed == s.pushed && t.popped == s.popped
    && t.p == s.p && (t.c == s.c || !(t.c.Take? || t.c.StoreHead?))
  }

  lemma WaitAside<F>(s: State<F>)
    requires 0 < s.cap == |s.ring| && (s.c.Register? || s.c.Park? || s.c.Asleep?)
    ensures Aside(s, ConsumerStep(s))
  {
  }

  lemma LookAside<F>(s: State<F>)
    requires 0 < s.cap == |s.ring| && (s.c.Idle? || s.c.Observe? || s.c.Compare? || s.c.Confirm? || s.c.Unregister?)
    ensures Aside(s, ConsumerStep(s))
  {
  }

  lemma ConsumerAside<F>(s: State<F>)
    requires 0 < s.cap == |s.ring| && !s.c.StoreHead? && !s.c.Look? && !s.c.Recheck? && !s.c.Take?
    ensures Aside(s, ConsumerStep(s))
  {
    hide ConsumerStep, Aside;
    if s.c.Register? || s.c.Park? || s.c.Asleep? { WaitAside(s); } else { LookAside(s); }
  }

  lemma LookRing<F>(s: State<F>)
    requires RingInv(s) && (s.c.Look? || s.c.Recheck? || s.c.Take?)
    ensures RingInv(ConsumerStep(s))
  {
    if s.c.Take? { assert s.ring[s.head % s.cap] == Some(s.pushed[s.head]); }
    SameRing(s, ConsumerStep(s));
  }

  lemma TailBound<F>(s: State<F>)
    requires Inv(s) && (s.c.Recheck? || Waiting(s.c))
    ensures s.observed <= s.stored <= s.tail <= s.observed + 0x8000_0001
    ensures s.sequence == s.c.o <==> s.stored == s.observed
  {
    hide Registered, Committed;
    SameWord(s.observed, s.stored);
  }

  lemma NotifyEvent<F>(s: State<F>)
    requires Inv(s) && (s.p.StoreSequence? || s.p.SwapWaiters? || s.p.Wake?)
    ensures EventInv(ProducerStep(s))
  {
    hide RingInv;
  }

  lemma PublishEvent<F>(s: State<F>)
    requires Inv(s) && !(s.p.StoreSequence? || s.p.SwapWaiters? || s.p.Wake?)
    ensures EventInv(ProducerStep(s))
  {
    hide RingInv;
  }

  lemma LookEvent<F>(s: State<F>)
    requires Inv(s) && (s.c.Look? || s.c.Observe? || s.c.Recheck? || s.c.Compare?)
    ensures EventInv(ConsumerStep(s))
  {
    if s.c.Recheck? || s.c.Compare? { TailBound(s); }
  }

  lemma WaitEvent<F>(s: State<F>)
    requires Inv(s) && (s.c.Register? || s.c.Confirm? || s.c.Park?)
    ensures EventInv(ConsumerStep(s))
  {
    TailBound(s);
    hide RingInv;
  }

  lemma OtherEvent<F>(s: State<F>)
    requires Inv(s) && (s.c.Idle? || s.c.Asleep? || s.c.Unregister? || s.c.Take? || s.c.StoreHead?)
    ensures EventInv(ConsumerStep(s))
  {
    if s.c.Take? { assert s.ring[s.head % s.cap] == Some(s.pushed[s.head]); }
    hide RingInv;
  }

  lemma ConsumerEvent<F>(s: State<F>)
    requires Inv(s)
    ensures EventInv(ConsumerStep(s))
  {
    hide Inv, EventInv, ConsumerStep;
    if s.c.Look? || s.c.Observe? || s.c.Recheck? || s.c.Compare? { LookEvent(s); }
    else if s.c.Register? || s.c.Confirm? || s.c.Park? { WaitEvent(s); }
    else { OtherEvent(s); }
  }

  lemma CallInv<F>(s: State<F>, e: Event<F>)
    requires Inv(s) && (e.Push? || e.Pop? || e.Timeout?)
    ensures Inv(Step(s, e))
  {
    SameRing(s, Step(s, e));
    hide RingInv;
  }

  lemma StepInv<F>(s: State<F>, e: Event<F>)
    requires Inv(s)
    ensures Inv(Step(s, e))
  {
    match e {
      case P =>
        ProducerRing(s);
        if s.p.StoreSequence? || s.p.SwapWaiters? || s.p.Wake? { NotifyEvent(s); } else { PublishEvent(s); }
        hide RingInv, EventInv, ProducerStep;
      case C =>
        ConsumerRing(s);
        ConsumerEvent(s);
        hide RingInv, EventInv, ConsumerStep;
      case _ => CallInv(s, e);
    }
  }

  lemma {:induction false} ResumeInv<F>(s: State<F>, es: seq<Event<F>>)
    requires Inv(s)
    ensures Inv(Resume(s, es))
    decreases |es|
  {
    if es != [] {
      StepInv(s, es[0]);
      ResumeInv(Step(s, es[0]), es[1..]);
    }
  }

  lemma RunInv<F>(latching: bool, cap: nat, es: seq<Event<F>>)
    requires 0 < cap <= 0x8000_0000
    ensures Inv(Run(latching, cap, es))
  {
    ResumeInv(Init<F>(latching, cap), es);
  }

  // ---- what every run guarantees ----------------------------------------------------

  /** The ring is a bounded first-in first-out queue: what has been popped is a prefix of what
      has been pushed, the rest is in the ring, and no unwritten descriptor is ever read. */
  lemma Fifo<F>(latching: bool, cap: nat, es: seq<Event<F>>)
    requires 0 < cap <= 0x8000_0000
    ensures var s := Run(latching, cap, es);
      && !s.fault && s.popped <= s.pushed && |s.pushed| <= |s.popped| + cap
      && forall q :: |s.popped| <= q < |s.pushed| ==> s.ring[q % cap] == Some(s.pushed[q])
  {
    RunInv(latching, cap, es);
  }

  /** The frames in the ring, oldest first. */
  function Queue<F>(s: State<F>): seq<F> {
    if |s.popped| <= |s.pushed| then s.pushed[|s.popped|..] else []
  }

  /** Each step of the ring and its event is a step of the bounded queue that the stream protocol is stated over: nothing,
      one frame put behind the others while fewer than `cap` wait, or the oldest frame taken. */
  lemma RefinesQueue<F>(latching: bool, cap: nat, es: seq<Event<F>>, e: Event<F>)
    requires 0 < cap <= 0x8000_0000
    ensures var s := Run(latching, cap, es); var t := Step(s, e); var q := Queue(s);
      || (Queue(t) == q && t.pushed == s.pushed && t.popped == s.popped)
      || (s.p.StoreTail? && |q| < cap && Queue(t) == q + [s.p.f] && t.pushed == s.pushed + [s.p.f] && t.popped == s.popped)
      || (q != [] && Queue(t) == q[1..] && t.popped == s.popped + [q[0]] && t.pushed == s.pushed)
  {
    hide Run, EventInv;
    RunInv(latching, cap, es);
    QueueStep(Run(latching, cap, es), e);
  }

  lemma ProducerHistory<F>(s: State<F>)
    requires 0 < s.cap == |s.ring| && !s.p.StoreTail?
    ensures ProducerStep(s).pushed == s.pushed && ProducerStep(s).popped == s.popped
  {
    if !s.p.Copy? {
      hide ProducerStep;
      ProducerAside(s);
    }
  }

  lemma ConsumerHistory<F>(s: State<F>)
    requires 0 < s.cap == |s.ring| && !s.c.StoreHead?
    ensures ConsumerStep(s).pushed == s.pushed && ConsumerStep(s).popped == s.popped
  {
    if !s.c.Take? && !s.c.Look? && !s.c.Recheck? {
      hide ConsumerStep;
      ConsumerAside(s);
    }
  }

  lemma PopQueue<F>(s: State<F>)
    requires RingInv(s) && s.c.StoreHead?
    ensures var t := ConsumerStep(s); var q := Queue(s); q != [] && Queue(t) == q[1..] && t.popped == s.popped + [q[0]] && t.pushed == s.pushed
  {
    var t := ConsumerStep(s);
    assert t.pushed == s.pushed && t.popped == s.popped + [s.pushed[s.head]] && |s.popped| == s.head < |s.pushed|;
    hide RingInv, ConsumerStep;
    assert s.pushed[s.head..][1..] == s.pushed[s.head + 1..];
  }

  lemma QueueStep<F>(s: State<F>, e: Event<F>)
    requires RingInv(s)
    ensures var t := Step(s, e); var q := Queue(s);
      || (Queue(t) == q && t.pushed == s.pushed && t.popped == s.popped)
      || (s.p.StoreTail? && |q| < s.cap && Queue(t) == q + [s.p.f] && t.pushed == s.pushed + [s.p.f] && t.popped == s.popped)
      || (q != [] && Queue(t) == q[1..] && t.popped == s.popped + [q[0]] && t.pushed == s.pushed)
  {
    hide ConsumerStep;
    assert 0 < s.cap == |s.ring|;
    if e.P? && s.p.StoreTail? {
      assert |s.popped| == s.head && |s.pushed| == s.tail < s.head + s.cap;
      hide RingInv;
      assert (s.pushed + [s.p.f])[s.head..] == s.pushed[s.head..] + [s.p.f];
    } else if e.C? && s.c.StoreHead? {
      PopQueue(s);
    } else {
      hide RingInv, ProducerStep;
      if e.P? { ProducerHistory(s); }
      if e.C? { ConsumerHistory(s); }
      assert Step(s, e).pushed == s.pushed && Step(s, e).popped == s.popped;
    }
  }

  /** The wake was lost: the consumer sleeps although a frame is waiting, the producer has
      finished notifying, and no remembered wake will end the sleep. */
  predicate Lost<F>(s: State<F>) {
    s.c.Asleep? && s.tail != s.head && s.p.Quiet? && !(s.latching && s.token)
  }

  /** With a primitive that remembers wakes no wake is ever lost; with a futex none is lost by a
      consumer that registered while no notify was between its two stores. */
  lemma NoLostWake<F>(latching: bool, cap: nat, es: seq<Event<F>>)
    requires 0 < cap <= 0x8000_0000
    requires latching || Run(latching, cap, es).clear
    ensures !Lost(Run(latching, cap, es))
  {
    RunInv(latching, cap, es);
    hide RingInv;
  }

  /** The schedule that loses a wake: the consumer registers and confirms, the earlier notify
      takes the registration and wakes nobody, the consumer falls asleep, and the next push
      finds no waiter. (The last event is a call that finds the consumer busy.) */
  function Losing<F>(f: F): seq<Event<F>> {
    [C, C, P, P] + [C, Push(f), P, P] + [P, P, P, Pop]
  }

  lemma Unroll<F>(s: State<F>, e: Event<F>, es: seq<Event<F>>)
    requires 0 < s.cap == |s.ring|
    ensures Resume(s, [e] + es) == Resume(Step(s, e), es)
  {
    hide Step;
    assert ([e] + es)[1..] == es;
  }

  lemma Unroll4<F>(s: State<F>, a: Event<F>, b: Event<F>, c: Event<F>, d: Event<F>, es: seq<Event<F>>)
    requires 0 < s.cap == |s.ring|
    ensures Resume(s, [a, b, c, d] + es) == Resume(Step(Step(Step(Step(s, a), b), c), d), es)
  {
    hide Step, Resume;
    var tail := [c, d] + es;
    assert [a, b, c, d] + es == [a, b] + tail;
    Unroll2(s, a, b, tail);
    Unroll2(Step(Step(s, a), b), c, d, es);
  }

  lemma Unroll2<F>(s: State<F>, a: Event<F>, b: Event<F>, es: seq<Event<F>>)
    requires 0 < s.cap == |s.ring|
    ensures Resume(s, [a, b] + es) == Resume(Step(Step(s, a), b), es)
  {
    hide Step, Resume;
    assert [a, b] + es == [a] + ([b] + es);
    Unroll(s, a, [b] + es);
    Unroll(Step(s, a), b, es);
  }

  /** Register, confirm; the stale notify swaps and wakes nobody. */
  lemma StaleWake<F>(s: State<F>)
    requires 0 < s.cap == |s.ring|
    requires !s.latching && s.c.Register? && s.p.SwapWaiters? && s.sequence == s.c.o
    ensures var t := Step(Step(Step(Step(s, C), C), P), P);
      t.c == Park(s.c.o) && t.p.Quiet? && !t.waiters && t.tail == s.tail && t.head == s.head && t.sequence == s.sequence
  {
    var a := Step(s, C);
    assert a.c == Confirm(s.c.o) && a.waiters && a.p.SwapWaiters? && a.sequence == s.sequence;
    var b := Step(a, C);
    assert b.c == Park(s.c.o) && b.waiters && b.p.SwapWaiters?;
    var c := Step(b, P);
    assert c.c == Park(s.c.o) && !c.waiters && c.p.Wake?;
  }

  /** Asleep, then a push up to its tail store. */
  lemma SleepAndPush<F>(s: State<F>, f: F)
    requires 0 < s.cap == |s.ring|
    requires !s.latching && s.c == Park(s.sequence) && s.p.Quiet? && !s.waiters && s.tail == s.head
    ensures var t := Step(Step(Step(Step(s, C), Push(f)), P), P);
      t.c.Asleep? && t.p.StoreTail? && !t.waiters && t.tail == t.head
  {
    var a := Step(s, C);
    assert a.c.Asleep? && a.p.Quiet? && !a.waiters && a.tail == a.head;
    var b := Step(a, Push(f));
    assert b.c.Asleep? && b.p == Load(f) && !b.waiters && b.tail == b.head;
    var c := Step(b, P);
    assert c.c.Asleep? && c.p == Copy(f) && !c.waiters && c.tail == c.head;
  }

  /** The rest of that push: its notify finds no waiter. */
  lemma UnheardNotify<F>(s: State<F>)
    requires 0 < s.cap == |s.ring|
    requires !s.latching && s.c.Asleep? && s.p.StoreTail? && !s.waiters && s.tail == s.head
    ensures Lost(Step(Step(Step(Step(s, P), P), P), Pop))
  {
    var a := Step(s, P);
    assert a.c.Asleep? && a.p.StoreSequence? && !a.waiters && a.tail == a.head + 1;
    var b := Step(a, P);
    assert b.c.Asleep? && b.p.SwapWaiters? && !b.waiters && b.tail == b.head + 1;
    var c := Step(b, P);
    assert c.c.Asleep? && c.p.Quiet? && c.tail == c.head + 1;
  }

  /** Conversely, a consumer that registers on a futex while a notify is between its two
      accesses can be left asleep on a non-empty ring (until its bounded sleep times out). */
  lemma MidNotifyCanLose<F>(s: State<F>, f: F)
    requires Inv(s) && !s.latching && s.c.Register? && s.p.SwapWaiters? && s.sequence == s.c.o
    ensures Lost(Resume(s, Losing(f)))
  {
    TailBound(s);
    assert s.tail == s.head;
    hide RingInv, EventInv, Step, Resume, Lost;
    StaleWake(s);
    var a := Step(Step(Step(Step(s, C), C), P), P);
    SleepAndPush(a, f);
    var b := Step(Step(Step(Step(a, C), Push(f)), P), P);
    UnheardNotify(b);
    Unroll4(s, C, C, P, P, [C, Push(f), P, P] + [P, P, P, Pop]);
    Unroll4(a, C, Push(f), P, P, [P, P, P, Pop]);
    Unroll4(b, P, P, P, Pop, []);
    assert Losing(f) == [C, C, P, P] + ([C, Push(f), P, P] + [P, P, P, Pop]);
    var last: seq<Event<F>> := [P, P, P, Pop];
    assert last == last + [];
    assert Resume(Step(Step(Step(Step(b, P), P), P), Pop), []) == Step(Step(Step(Step(b, P), P), P), Pop) by {
      ResumeNil(Step(Step(Step(Step(b, P), P), P), Pop));
    }
  }

  /** The rest of that window: a registration whose observed word has already moved on never sleeps. Whatever happens next, the
      word stays different and the consumer unregisters. */
  lemma MovedWordStaysAwake<F>(s: State<F>, e: Event<F>)
    requires Inv(s) && (s.c.Register? || s.c.Confirm?) && s.sequence != s.c.o
    ensures var t := Step(s, e); t.c.Unregister? || ((t.c.Register? || t.c.Confirm?) && t.c.o == s.c.o && t.sequence != t.c.o)
  {
    hide RingInv, EventInv, ProducerStep;
    RingSize(s);
    TailBound(s);
    StepInv(s, e);
    var t := Step(s, e);
    ProducerSequence(s);
    if t.c.Register? || t.c.Confirm? { TailBound(t); }
  }

  lemma RingSize<F>(s: State<F>)
    requires RingInv(s)
    ensures 0 < s.cap == |s.ring|
  {
  }

  /** The producer never takes the stored cursor back, and leaves a consumer that is awake alone. */
  lemma ProducerSequence<F>(s: State<F>)
    requires 0 < s.cap == |s.ring| && s.stored <= s.tail && !s.c.Asleep?
    ensures ProducerStep(s).stored >= s.stored && ProducerStep(s).observed == s.observed && ProducerStep(s).c == s.c
  {
  }

  lemma ResumeNil<F>(s: State<F>)
    requires 0 < s.cap == |s.ring|
    ensures Resume(s, []) == s
  {
  }

  /** Publish one frame and stop before the waiter swap. */
  lemma PublishUpToSwap<F>(s: State<F>, f: F)
    requires s == Init(false, s.cap) && s.cap > 0
    ensures var t := Step(Step(Step(Step(Step(s, Push(f)), P), P), P), P);
      t == s.(ring := s.ring[0 := Some(f)], tail := 1, pushed := [f], sequence := 1, stored := 1, p := SwapWaiters)
  {
    var a := Step(Step(s, Push(f)), P);
    assert a == s.(p := Copy(f));
    var b := Step(a, P);
    assert b == s.(ring := s.ring[0 := Some(f)], p := StoreTail(f));
    assert [] + [f] == [f];
  }

  /** Pop that frame and start the next pop, up to registration. */
  lemma PopUpToRegister<F>(s: State<F>, f: F)
    requires 0 < s.cap == |s.ring| && s.ring[0] == Some(f) && s.head == 0 && s.tail == 1 && s.sequence == 1
    requires s.c.Idle? && s.p.SwapWaiters? && !s.latching
    ensures var a := Step(Step(Step(Step(s, Pop), C), C), C);
      var t := Step(Step(Step(Step(Step(a, Pop), C), C), C), C);
      t.c == Register(1) && t.p.SwapWaiters? && t.sequence == 1 && !t.latching
  {
    var a := Step(Step(Step(s, Pop), C), C);
    assert a.c == StoreHead(f) && a.head == 0 && a.tail == 1 && a.p.SwapWaiters? && a.sequence == 1;
    var b := Step(a, C);
    assert b.c.Idle? && b.head == 1 && b.tail == 1 && b.p.SwapWaiters? && b.sequence == 1;
    var c := Step(Step(Step(b, Pop), C), C);
    assert c.c == Recheck(1) && c.head == 1 && c.tail == 1 && c.p.SwapWaiters? && c.sequence == 1;
  }

  /** So the futex form of the event does lose wakes: some run ends with the consumer asleep on a
      non-empty ring although every publication has completed. */
  lemma FutexLosesAWake<F>(cap: nat, f: F) returns (es: seq<Event<F>>)
    requires 0 < cap <= 0x8000_0000
    ensures Lost(Run(false, cap, es))
  {
    var s := Init<F>(false, cap);
    PublishUpToSwap(s, f);
    var a := Step(Step(Step(Step(Step(s, Push(f)), P), P), P), P);
    PopUpToRegister(a, f);
    var b := Step(Step(Step(Step(a, Pop), C), C), C);
    var c := Step(Step(Step(Step(Step(b, Pop), C), C), C), C);
    assert Inv(s);
    hide Inv, Step, Resume, Lost, RingInv, EventInv;
    assert Inv(c) by { InvAlong(s, f); }
    MidNotifyCanLose(c, f);
    var d := [Pop, C, C, C] + ([C] + Losing(f));
    es := [Push(f), P, P, P] + ([P] + ([Pop, C, C, C] + d));
    Unroll4(s, Push(f), P, P, P, [P] + ([Pop, C, C, C] + d));
    Unroll(Step(Step(Step(Step(s, Push(f)), P), P), P), P, [Pop, C, C, C] + d);
    Unroll4(a, Pop, C, C, C, d);
    Unroll4(b, Pop, C, C, C, [C] + Losing(f));
    Unroll(Step(Step(Step(Step(b, Pop), C), C), C), C, Losing(f));
  }

  lemma Inv5<F>(s: State<F>, a: Event<F>, b: Event<F>, c: Event<F>, d: Event<F>, e: Event<F>)
    requires Inv(s)
    ensures Inv(Step(Step(Step(Step(Step(s, a), b), c), d), e))
    ensures Inv(Step(Step(Step(Step(s, a), b), c), d))
  {
    assert 0 < s.cap == |s.ring|;
    hide Inv, Step;
    StepInv(s, a);
    StepInv(Step(s, a), b);
    StepInv(Step(Step(s, a), b), c);
    StepInv(Step(Step(Step(s, a), b), c), d);
    StepInv(Step(Step(Step(Step(s, a), b), c), d), e);
  }

  lemma InvAlong<F>(s: State<F>, f: F)
    requires Inv(s)
    ensures var a := Step(Step(Step(Step(Step(s, Push(f)), P), P), P), P);
      var b := Step(Step(Step(Step(a, Pop), C), C), C);
      Inv(Step(Step(Step(Step(Step(b, Pop), C), C), C), C))
  {
    assert 0 < s.cap == |s.ring|;
    hide Inv, Step;
    Inv5(s, Push(f), P, P, P, P);
    var a := Step(Step(Step(Step(Step(s, Push(f)), P), P), P), P);
    Inv5(a, Pop, C, C, C, C);
    Inv5(Step(Step(Step(Step(a, Pop), C), C), C), Pop, C, C, C, C);
  }
}
