/** Calls on the segmented queue end with what they were made for: a push is accepted while there is a consumer, a pop hands out all that is
    there up to its limit, the tests answer, and teardown frees every segment. */
module SegProgress {
  import opened Seg

  function Again<V>(s: State<V>, e: Event<V>, n: nat): (t: State<V>)
    requires WellFormed(s)
    ensures WellFormed(t) && t.size == s.size
    decreases n
  {
    if n == 0 then s else Again(Step(s, e), e, n - 1)
  }

  lemma Facts<V>(s: State<V>)
    requires Inv(s)
    ensures WellFormed(s) && !s.fault && s.taken <= s.sent && s.ridx <= |s.segs[s.seg].vals| <= s.size
    ensures s.seg < Last(s) ==> |s.segs[s.seg].vals| == s.size && s.segs[s.seg].linked
    ensures s.seg == Last(s) ==> !s.segs[s.seg].linked
    ensures s.seg == Last(s) && s.ridx == |s.segs[s.seg].vals| <==> s.taken == s.sent && s.seg == Last(s)
    ensures !s.rx.Walk? && !s.rx.Done? ==> !s.segs[s.seg].freed
  {
    hide SlotsOk, Content, Flat;
    assert SegInv(s, s.seg);
    FlatLength(s.segs, s.seg);
    UptoPrefix(s.segs, s.seg, s.ridx);
    assert |s.taken| == |Flat(s.segs[..s.seg])| + s.ridx;
  }

  // ---- pushing ---------------------------------------------------------------------------------------

  function PushLeft<V>(tx: TxPc<V>): nat {
    match tx
    case Check(_) => 4
    case Room(_) => 3
    case Write(_) => 2
    case Publish(_) => 1
    case _ => 0
  }

  ghost predicate PushNearer<V>(s: State<V>, t: State<V>)
    requires PushLeft(s.tx) > 0
  {
    && t.taken == s.taken && PushLeft(t.tx) < PushLeft(s.tx) && t.consumerGone == s.consumerGone
    && if t.tx.Ready? then t.sent == (if s.tx.Check? then s.sent else s.sent + [s.tx.v]) && (s.tx.Check? ==> s.consumerGone)
       else t.sent == s.sent && PushLeft(t.tx) > 0 && t.tx.v == s.tx.v && !t.tx.Check? && (s.tx.Check? ==> !s.consumerGone)
  }

  lemma ReachSlot<V>(s: State<V>)
    requires WellFormed(s) && (s.tx.Check? || s.tx.Room?)
    ensures PushNearer(s, Step(s, Tx))
  {
  }

  lemma FillSlot<V>(s: State<V>)
    requires WellFormed(s) && (s.tx.Write? || s.tx.Publish?) && !TxStep(s).fault
    ensures PushNearer(s, Step(s, Tx))
  {
  }

  lemma {:induction false} PushEnds<V>(s: State<V>) returns (n: nat)
    requires Inv(s) && PushLeft(s.tx) > 0
    ensures WellFormed(s) && n <= PushLeft(s.tx)
    ensures var t := Again(s, Tx, n);
      t.tx.Ready? && t.taken == s.taken && t.sent == if s.tx.Check? && s.consumerGone then s.sent else s.sent + [s.tx.v]
    decreases PushLeft(s.tx)
  {
    hide Inv, TxStep;
    Facts(s);
    StepKeeps(s, Tx);
    var t := Step(s, Tx);
    Facts(t);
    if s.tx.Check? || s.tx.Room? { ReachSlot(s); } else { FillSlot(s); }
    hide Step;
    if t.tx.Ready? {
      assert Again(t, Tx, 0) == t;
      n := 1;
    } else {
      n := PushEnds(t);
      n := n + 1;
    }
  }

  // ---- asking ----------------------------------------------------------------------------------------

  predicate Questioned(rx: RxPc) { rx.AskGone? || Asking(rx) }

  function AskLeft(rx: RxPc): nat {
    if rx.AskGone? then 4 else if rx.AskPublished? then 3 else if rx.AskNext? then 2 else if rx.AskNextPublished? then 1 else 0
  }

  /** Whether the producer had gone, as far as the question asks for it. */
  function AskedGone<V>(s: State<V>): bool { s.rx.AskGone? ==> s.producerGone }

  lemma AskTurn<V>(s: State<V>)
    requires Inv(s) && Questioned(s.rx)
    ensures WellFormed(s)
    ensures var t := Step(s, Rx);
      && t.taken == s.taken && t.sent == s.sent && t.producerGone == s.producerGone && AskLeft(t.rx) < AskLeft(s.rx)
      && if t.rx.Idle? then t.answer == (s.taken == s.sent && AskedGone(s)) else Asking(t.rx) && AskedGone(s)
  {
    if Asking(s.rx) && Step(s, Rx).rx.Idle? { EmptyAt(s); }
    hide Account, SegInv, Flat;
  }

  lemma {:induction false} AskEnds<V>(s: State<V>) returns (n: nat)
    requires Inv(s) && Questioned(s.rx)
    ensures WellFormed(s) && n <= 4
    ensures var t := Again(s, Rx, n);
      t.rx.Idle? && t.taken == s.taken && t.sent == s.sent && t.answer == (s.taken == s.sent && AskedGone(s))
    ensures n <= AskLeft(s.rx)
    decreases AskLeft(s.rx)
  {
    hide Inv, Step, WellFormed;
    AskTurn(s);
    StepKeeps(s, Rx);
    var t := Step(s, Rx);
    if t.rx.Idle? {
      assert Again(t, Rx, 0) == t;
      n := 1;
    } else {
      n := AskEnds(t);
      n := n + 1;
    }
  }

  // ---- taking ----------------------------------------------------------------------------------------

  predicate Popping(rx: RxPc) { rx.Look? || rx.LoadNext? || rx.StoreHead? || rx.Retire? || rx.LoadPublished? || rx.Take? }

  /** How much will have been taken when the call ends. */
  function Goal<V>(s: State<V>): int
    requires Popping(s.rx)
  {
    if |s.sent| - |s.taken| < s.rx.left then |s.sent| else |s.taken| + s.rx.left
  }

  function Rank(rx: RxPc): nat {
    match rx
    case Retire(_) => 0
    case StoreHead(_) => 1
    case LoadNext(_) => 2
    case Look(left) => if left == 0 then 1 else 4
    case LoadPublished(_) => 3
    case Take(n, left) => if n > 0 then 0 else if left == 0 then 2 else 5
    case _ => 0
  }

  lemma LookTurn<V>(s: State<V>)
    requires Inv(s) && (s.rx.Look? || s.rx.LoadNext? || s.rx.StoreHead? || s.rx.LoadPublished?)
    ensures WellFormed(s)
    ensures var t := Step(s, Rx);
      && t.sent == s.sent && t.taken == s.taken && t.seg == s.seg && |t.segs| == |s.segs|
      && if t.rx.Idle? then |t.taken| == Goal(s)
         else Popping(t.rx) && t.rx.left == s.rx.left && Rank(t.rx) < Rank(s.rx)
  {
    hide Account, SegInv, Flat, Sized;
    Facts(s);
    assert Pcs(s);
    assert |s.taken| == |s.sent| ==> s.taken == s.sent;
    hide Inv;
  }

  lemma RetireTurn<V>(s: State<V>)
    requires Inv(s) && s.rx.Retire?
    ensures WellFormed(s)
    ensures var t := Step(s, Rx);
      Inv(t) && t.sent == s.sent && |t.segs| == |s.segs| && t.rx == Look(s.rx.left) && t.taken == s.taken && t.seg == s.seg + 1 < |t.segs|
  {
    hide Account, SegInv, Flat, Sized;
    StepKeeps(s, Rx);
    assert Pcs(s);
    hide Inv;
  }

  lemma TakeTurn<V>(s: State<V>)
    requires Inv(s) && s.rx.Take?
    ensures WellFormed(s) && s.rx.n <= s.rx.left
    ensures var t := Step(s, Rx);
      && Inv(t) && t.sent == s.sent && |t.segs| == |s.segs| && t.seg == s.seg
      && if s.rx.n == 0 || s.rx.left == 0 then t.rx == Look(s.rx.left) && t.taken == s.taken
         else t.rx == Take(s.rx.n - 1, s.rx.left - 1) && |t.taken| == |s.taken| + 1
  {
    assert Pcs(s) && !s.fault;
    StepKeeps(s, Rx);
    assert !Step(s, Rx).fault;
    hide Inv, Pcs, Account, SegInv, Flat;
  }

  /** Nearer to the end of the pop: another segment, fewer values wanted, or fewer steps. */
  predicate Sooner<V>(s: State<V>, t: State<V>)
    requires Popping(s.rx) && Popping(t.rx)
  {
    && |t.segs| == |s.segs|
    && (t.seg > s.seg || (t.seg == s.seg && (t.rx.left < s.rx.left || (t.rx.left == s.rx.left && Rank(t.rx) < Rank(s.rx)))))
  }

  lemma PopTurn<V>(s: State<V>)
    requires Inv(s) && Popping(s.rx)
    ensures WellFormed(s)
    ensures var t := Step(s, Rx);
      && Inv(t) && t.sent == s.sent && t.taken <= t.sent && t.seg < |t.segs|
      && if t.rx.Idle? then |t.taken| == Goal(s) else Popping(t.rx) && Goal(t) == Goal(s) && Sooner(s, t)
  {
    hide Inv, Step;
    if s.rx.Retire? { RetireTurn(s); } else if s.rx.Take? { TakeTurn(s); } else { LookTurn(s); StepKeeps(s, Rx); }
    Facts(s);
    Facts(Step(s, Rx));
  }

  /** A pop left alone takes all that is there, up to its limit. */
  lemma {:induction false} PopEnds<V>(s: State<V>) returns (n: nat)
    requires Inv(s) && Popping(s.rx) && s.seg < |s.segs|
    ensures WellFormed(s)
    ensures var t := Again(s, Rx, n); t.rx.Idle? && t.sent == s.sent && t.taken <= t.sent && |t.taken| == Goal(s)
    decreases |s.segs| - s.seg, s.rx.left, Rank(s.rx)
  {
    hide Inv, Step, Goal, Rank, WellFormed;
    PopTurn(s);
    var t := Step(s, Rx);
    if t.rx.Idle? {
      assert Again(t, Rx, 0) == t;
      n := 1;
    } else {
      n := PopEnds(t);
      n := n + 1;
    }
  }

  // ---- teardown --------------------------------------------------------------------------------------

  /** What the walk still has to do: values to destroy and segments to free. */
  function WalkLeft<V>(segs: seq<Segment<V>>, at: nat): nat
    decreases |segs| - at
  {
    if at >= |segs| then 0 else |segs[at].vals| + 1 + WalkLeft(segs, at + 1)
  }

  lemma {:induction false} WalkSame<V>(a: seq<Segment<V>>, b: seq<Segment<V>>, at: nat)
    requires |a| == |b| && forall i :: 0 <= i < |a| ==> a[i].vals == b[i].vals
    ensures WalkLeft(a, at) == WalkLeft(b, at)
    decreases |a| - at
  {
    if at < |a| { WalkSame(a, b, at + 1); }
  }

  function Remaining<V>(s: State<V>): int
    requires s.rx.Walk?
  {
    WalkLeft(s.segs, s.rx.at) - if s.rx.at < |s.segs| then s.rx.j else 0
  }

  /** One turn of the walk: a value destroyed, a segment freed, or the end. */
  lemma WalkShape<V>(s: State<V>, at: nat, j: nat)
    requires WellFormed(s) && !WalkStep(s, at, j).fault
    ensures var t := WalkStep(s, at, j);
      && |t.segs| == |s.segs| && (forall i :: 0 <= i < |s.segs| ==> t.segs[i].vals == s.segs[i].vals)
      && if at >= |s.segs| then t.rx.Done?
         else if j < |s.segs[at].vals| then t.rx == Walk(at, j + 1) else t.rx.Walk? && t.rx.at == at + 1
  {
  }

  lemma WalkTurn<V>(s: State<V>)
    requires Inv(s) && s.rx.Walk?
    ensures WellFormed(s) && s.tx.Dropped? && Remaining(s) >= 0
    ensures var t := Step(s, Free); Inv(t) && if s.rx.at >= |s.segs| then t.rx.Done? else t.rx.Walk? && Remaining(t) < Remaining(s)
  {
    hide Account, SegInv, Flat, WalkStep;
    assert Pcs(s) && !s.fault;
    StepKeeps(s, Free);
    var t := Step(s, Free);
    assert t == WalkStep(s, s.rx.at, s.rx.j) && Pcs(t) && !t.fault;
    hide Inv, Pcs, Step, WellFormed;
    WalkShape(s, s.rx.at, s.rx.j);
    if s.rx.at < |s.segs| {
      WalkSame(s.segs, t.segs, s.rx.at);
      WalkSame(s.segs, t.segs, s.rx.at + 1);
    }
  }

  lemma {:induction false} WalkEnds<V>(s: State<V>) returns (n: nat)
    requires Inv(s) && s.rx.Walk?
    ensures WellFormed(s) && n <= Remaining(s) + 1 && Again(s, Free, n).rx.Done?
    decreases Remaining(s)
  {
    hide Inv, Step, Remaining;
    WalkTurn(s);
    var t := Step(s, Free);
    if t.rx.Done? {
      assert Again(t, Free, 0) == t;
      n := 1;
    } else {
      WalkTurn(t);
      n := WalkEnds(t);
      n := n + 1;
    }
  }

  // ---- every run -------------------------------------------------------------------------------------

  function Repeat<V>(e: Event<V>, n: nat): (es: seq<Event<V>>)
    ensures |es| == n
  {
    if n == 0 then [] else [e] + Repeat(e, n - 1)
  }

  lemma RunNext<V>(size: nat, es: seq<Event<V>>, e: Event<V>)
    requires size > 0
    ensures Run(size, es + [e]) == Step(Run(size, es), e)
  {
    hide Step;
    assert (es + [e])[..|es|] == es;
  }

  lemma {:induction false} RunAgain<V>(size: nat, es: seq<Event<V>>, e: Event<V>, n: nat)
    requires size > 0
    ensures Run(size, es + Repeat(e, n)) == Again(Run(size, es), e, n)
    decreases n
  {
    hide Step, Run;
    if n == 0 {
      assert es + [] == es;
    } else {
      RunNext(size, es, e);
      RunAgain(size, es + [e], e, n - 1);
      assert es + Repeat(e, n) == es + [e] + Repeat(e, n - 1);
    }
  }

  /** In every run, a push left alone is accepted exactly if the consumer is there. */
  lemma PushCompletes<V>(size: nat, es: seq<Event<V>>, v: V) returns (n: nat)
    requires size > 0 && Run(size, es).tx.Ready?
    ensures n <= 4
    ensures var (s, t) := (Run(size, es), Run(size, es + [Push(v)] + Repeat(Tx, n)));
      t.tx.Ready? && t.taken == s.taken && t.sent == if s.consumerGone then s.sent else s.sent + [v]
  {
    hide Run, Inv, TxStep, RxStep, FreeStep;
    RunInv(size, es + [Push(v)]);
    RunNext(size, es, Push(v));
    n := PushEnds(Run(size, es + [Push(v)]));
    RunAgain(size, es + [Push(v)], Tx, n);
  }

  /** In every run, a pop left alone hands out the next values in order: all that are there, up to its limit. */
  lemma PopCompletes<V>(size: nat, es: seq<Event<V>>, max: nat) returns (n: nat)
    requires size > 0 && Run(size, es).rx.Idle?
    ensures var (s, t) := (Run(size, es), Run(size, es + [Pop(max)] + Repeat(Rx, n)));
      && t.rx.Idle? && t.sent == s.sent && t.taken <= t.sent
      && |t.taken| == if |s.sent| - |s.taken| < max then |s.sent| else |s.taken| + max
  {
    hide Run, Inv, TxStep, RxStep, FreeStep;
    RunInv(size, es + [Pop(max)]);
    RunNext(size, es, Pop(max));
    n := PopEnds(Run(size, es + [Pop(max)]));
    RunAgain(size, es + [Pop(max)], Rx, n);
  }

  /** In every run, `is_empty` and `is_finished` left alone answer, and answer the truth. */
  lemma AskCompletes<V>(size: nat, es: seq<Event<V>>, finished: bool) returns (n: nat)
    requires size > 0 && Run(size, es).rx.Idle?
    ensures n <= 4
    ensures var (s, t) := (Run(size, es), Run(size, es + [Ask(finished)] + Repeat(Rx, n)));
      && t.rx.Idle? && t.taken == s.taken && t.sent == s.sent
      && t.answer == (s.taken == s.sent && (finished ==> s.producerGone))
  {
    hide Run, Inv, TxStep, RxStep, FreeStep;
    RunInv(size, es + [Ask(finished)]);
    RunNext(size, es, Ask(finished));
    n := AskEnds(Run(size, es + [Ask(finished)]));
    RunAgain(size, es + [Ask(finished)], Rx, n);
  }

  /** In every run, once both ends have let go, the teardown ends, with every segment freed and every value accounted for. */
  lemma TeardownEnds<V>(size: nat, es: seq<Event<V>>) returns (n: nat)
    requires size > 0 && Run(size, es).rx.Gone? && Run(size, es).tx.Dropped?
    ensures var t := Run(size, es + [Free] + Repeat(Free, n)); t.rx.Done? && t.taken + t.destroyed == t.sent == Run(size, es).sent
  {
    hide Run, Inv, TxStep, RxStep;
    RunInv(size, es + [Free]);
    RunNext(size, es, Free);
    n := WalkEnds(Run(size, es + [Free]));
    RunAgain(size, es + [Free], Free, n);
    OwnedOnce(size, es + [Free] + Repeat(Free, n));
    SentStays(Run(size, es + [Free]), n);
  }

  lemma {:induction false} SentStays<V>(s: State<V>, n: nat)
    requires WellFormed(s)
    ensures Again(s, Free, n).sent == s.sent
    decreases n
  {
    hide FreeStep;
    if n > 0 { SentStays(Step(s, Free), n - 1); }
  }
}
