/** Calls on a descriptor ring end: a push with room publishes and notifies, and a pop hands over the oldest frame, however deep in its
    wait the consumer is, unless its wake was lost. */
module ArenaProgress {
  import opened Wrappers
  import opened Arena

  function Again<F>(s: State<F>, e: Event<F>, n: nat): (t: State<F>)
    requires 0 < s.cap == |s.ring|
    ensures t.cap == s.cap == |t.ring| && t.latching == s.latching
    decreases n
  {
    if n == 0 then s else Again(Step(s, e), e, n - 1)
  }

  function Repeat<F>(e: Event<F>, n: nat): (es: seq<Event<F>>)
    ensures |es| == n
  {
    if n == 0 then [] else [e] + Repeat(e, n - 1)
  }

  lemma {:induction false} RunAgain<F>(s: State<F>, e: Event<F>, n: nat)
    requires 0 < s.cap == |s.ring|
    ensures Resume(s, Repeat(e, n)) == Again(s, e, n)
    decreases n
  {
    hide Step;
    if n > 0 {
      Unroll(s, e, Repeat(e, n - 1));
      RunAgain(Step(s, e), e, n - 1);
    }
  }

  lemma {:induction false} RunSplit<F>(s: State<F>, a: seq<Event<F>>, b: seq<Event<F>>)
    requires 0 < s.cap == |s.ring|
    ensures Resume(s, a + b) == Resume(Resume(s, a), b)
    decreases |a|
  {
    hide Step;
    if a == [] {
      assert a + b == b;
    } else {
      RunSplit(Step(s, a[0]), a[1..], b);
      assert (a + b)[1..] == a[1..] + b;
    }
  }

  // ---- pushing ---------------------------------------------------------------------------------------

  /** The steps left of a push that has found room. */
  function PushLeft<F>(p: ProducerPc<F>): nat {
    match p
    case Quiet => 0
    case Load(_) => 6
    case Copy(_) => 5
    case StoreTail(_) => 4
    case StoreSequence => 3
    case SwapWaiters => 2
    case Wake => 1
  }

  function Offered<F>(p: ProducerPc<F>): seq<F> { if p.Load? || p.Copy? || p.StoreTail? then [p.f] else [] }

  ghost predicate PushNearer<F>(s: State<F>, t: State<F>) {
    && PushLeft(t.p) < PushLeft(s.p) && t.pushed + Offered(t.p) == s.pushed + Offered(s.p)
    && t.head == s.head && !t.p.Load? && t.popped == s.popped
  }

  lemma PublishStep<F>(s: State<F>)
    requires 0 < s.cap == |s.ring| && (s.p.Load? || s.p.Copy? || s.p.StoreTail?) && (s.p.Load? ==> s.tail < s.head + s.cap)
    ensures PushNearer(s, Step(s, P))
  {
    var t := Step(s, P);
    if s.p.StoreTail? { assert t.pushed + [] == t.pushed; }
  }

  lemma NotifyStep<F>(s: State<F>)
    requires 0 < s.cap == |s.ring| && (s.p.StoreSequence? || s.p.SwapWaiters? || s.p.Wake?)
    ensures PushNearer(s, Step(s, P))
  {
  }

  lemma {:induction false} PushEnds<F>(s: State<F>) returns (n: nat)
    requires Inv(s) && (s.p.Load? ==> s.tail < s.head + s.cap)
    ensures 0 < s.cap == |s.ring| && n <= PushLeft(s.p)
    ensures var t := Again(s, P, n); t.p.Quiet? && t.pushed == s.pushed + Offered(s.p) && t.head == s.head && t.popped == s.popped
    decreases PushLeft(s.p)
  {
    hide EventInv, Step;
    if s.p.Quiet? {
      assert s.pushed + [] == s.pushed;
      n := 0;
    } else {
      if s.p.Load? || s.p.Copy? || s.p.StoreTail? { PublishStep(s); } else { NotifyStep(s); }
      StepInv(s, P);
      n := PushEnds(Step(s, P));
      n := n + 1;
    }
  }

  /** In every run, a push left alone while the ring has room publishes its frame and finishes its notify. */
  lemma PushCompletes<F>(latching: bool, cap: nat, es: seq<Event<F>>, f: F) returns (n: nat)
    requires 0 < cap <= 0x8000_0000
    requires var s := Run(latching, cap, es); s.p.Quiet? && s.tail < s.head + cap
    ensures n <= 6
    ensures var (s, t) := (Run(latching, cap, es), Run(latching, cap, es + ([Push(f)] + Repeat(P, n))));
      t.p.Quiet? && t.pushed == s.pushed + [f] && t.popped == s.popped
  {
    hide EventInv, RingInv, Resume;
    RunInv(latching, cap, es);
    var s := Run(latching, cap, es);
    StepInv(s, Push(f));
    n := PushEnds(Step(s, Push(f)));
    RunSplit(Init<F>(latching, cap), es, [Push(f)] + Repeat(P, n));
    Unroll(s, Push(f), Repeat(P, n));
    RunAgain(Step(s, Push(f)), P, n);
  }

  // ---- popping ---------------------------------------------------------------------------------------

  /** The steps left of a pop for which a frame is there. */
  function PopLeft<F>(c: ConsumerPc<F>): nat {
    match c
    case Idle => 0
    case StoreHead(_) => 1
    case Take => 2
    case Look => 3
    case Recheck(_) => 3
    case Observe => 4
    case Unregister => 4
    case Asleep(_) => 5
    case Park(_) => 6
    case Confirm(_) => 7
    case Register(_) => 8
    case Compare(_) => 9
  }

  /** With a frame there and the producer quiet, an event word that was observed before is no longer the same. */
  lemma WordMoved<F>(s: State<F>)
    requires Inv(s) && s.head < s.tail && s.p.Quiet? && Waiting(s.c)
    ensures s.sequence != s.c.o
    ensures Committed(s.c) ==> !s.waiters
  {
    TailBound(s);
  }

  lemma LookStep<F>(s: State<F>)
    requires RingInv(s) && s.head < s.tail && s.p.Quiet? && (s.c.Look? || s.c.Observe? || s.c.Recheck? || s.c.Take? || s.c.StoreHead?)
    ensures Popping(s, Step(s, C))
  {
    assert s.ring[s.head % s.cap] == Some(s.pushed[s.head]);
  }

  /** One step of such a pop: nearer to its end, and the oldest frame handed over with its last step. */
  ghost predicate Popping<F>(s: State<F>, t: State<F>) {
    && t.p.Quiet? && t.pushed == s.pushed && t.tail == s.tail && PopLeft(t.c) < PopLeft(s.c)
    && (if t.c.Idle? then s.head < |s.pushed| && t.popped == s.popped + [s.pushed[s.head]] else t.popped == s.popped && t.head == s.head)
    && (s.clear ==> t.clear)
  }

  lemma WaitStep<F>(s: State<F>)
    requires Inv(s) && s.head < s.tail && s.p.Quiet? && (s.latching || s.clear) && (Waiting(s.c) || s.c.Unregister?)
    ensures Popping(s, Step(s, C))
  {
    if Waiting(s.c) { WordMoved(s); }
    hide RingInv;
  }

  lemma {:induction false} PopEnds<F>(s: State<F>) returns (n: nat)
    requires Inv(s) && s.head < s.tail && s.p.Quiet? && (s.latching || s.clear) && !s.c.Idle?
    ensures 0 < s.cap == |s.ring| && s.head < |s.pushed| && n <= PopLeft(s.c)
    ensures var t := Again(s, C, n); t.c.Idle? && t.popped == s.popped + [s.pushed[s.head]] && t.pushed == s.pushed
    decreases PopLeft(s.c)
  {
    if Waiting(s.c) || s.c.Unregister? { WaitStep(s); } else { LookStep(s); }
    StepInv(s, C);
    assert 0 < s.cap == |s.ring| && |s.pushed| == s.tail;
    hide RingInv, EventInv, Step;
    var t := Step(s, C);
    if t.c.Idle? {
      assert Again(t, C, 0) == t;
      n := 1;
    } else {
      n := PopEnds(t);
      n := n + 1;
    }
  }

  /** In every run, with a frame in the ring and the producer quiet, a consumer wherever it is in its pop gets the oldest frame by its own
      steps: always with a primitive that remembers wakes, and with a futex if it registered outside a notify. */
  lemma PopCompletes<F>(latching: bool, cap: nat, es: seq<Event<F>>) returns (n: nat)
    requires 0 < cap <= 0x8000_0000
    requires var s := Run(latching, cap, es); s.head < s.tail && s.p.Quiet? && !s.c.Idle? && (latching || s.clear)
    ensures n <= 9
    ensures var (s, t) := (Run(latching, cap, es), Run(latching, cap, es + Repeat(C, n)));
      && |s.popped| < |s.pushed| && t.c.Idle? && t.popped == s.popped + [s.pushed[|s.popped|]] && t.pushed == s.pushed
  {
    hide EventInv, Resume;
    RunInv(latching, cap, es);
    var s := Run(latching, cap, es);
    assert |s.popped| == s.head;
    hide RingInv;
    n := PopEnds(s);
    RunSplit(Init<F>(latching, cap), es, Repeat(C, n));
    RunAgain(s, C, n);
  }
}
