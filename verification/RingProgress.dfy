/** Calls on the bounded ring end, and do what they were asked: a push moves values while there is room, a pop takes values while
    there are any, the end is seen once it is there, and teardown leaves nothing behind. */
module RingProgress {
  import opened Wrappers
  import opened Arith
  import opened Ring

  lemma {:induction false} AgainSplit<V>(s: State<V>, e: Event<V>, a: nat, b: nat)
    requires WellFormed(s)
    ensures Again(s, e, a + b) == Again(Again(s, e, a), e, b)
    decreases b
  {
    hide Step;
    if b > 0 { AgainSplit(s, e, a, b - 1); }
  }

  lemma {:induction false} AgainInv<V>(s: State<V>, e: Event<V>, n: nat)
    requires Inv(s)
    ensures WellFormed(s) && Inv(Again(s, e, n))
  {
    assert WellFormed(s);
    hide Step, Inv;
    if n > 0 {
      AgainInv(s, e, n - 1);
      StepInv(Again(s, e, n - 1), e);
    }
  }

  lemma AgainOne<V>(s: State<V>, e: Event<V>)
    requires WellFormed(s)
    ensures Again(s, e, 1) == Step(s, e)
  {
    hide Step;
    assert Again(s, e, 0) == s;
  }

  lemma Facts<V>(s: State<V>)
    requires Inv(s)
    ensures WellFormed(s) && s.h <= |s.pushed| && (!s.rx.Closed? && !s.rx.Freed? ==> s.h <= s.tc <= |s.pushed|)
    ensures s.rx.Idle? ==> !s.consumerGone
    ensures s.rx.Closing? ==> s.consumerGone
  {
    hide Slots, History;
  }

  lemma CallsTake<V>(s: State<V>, e: Event<V>, max: nat)
    requires Inv(s) && ((s.rx.Idle? && e == Pop(max)) || (s.rx.Closing? && e == Rx && max == 1))
    ensures WellFormed(s) && Step(s, e) == s.(rx := Take(max)) && Inv(Step(s, e))
  {
    StepInv(s, e);
    hide Counters, Pcs, Slots, History;
  }

  // ---- pushing ---------------------------------------------------------------------------------

  /** `m` of the items offered have been published and the sender is ready; nothing else changed that the peer sees. */
  ghost predicate Published<V>(s: State<V>, t: State<V>, items: seq<V>, m: nat) {
    && m <= |items| && t.tx.Ready? && t.pushed == s.pushed + items[..m]
    && t.taken == s.taken && t.h == s.h && t.rx == s.rx && t.destroyed == s.destroyed
  }

  lemma MoveEnds<V>(s: State<V>, items: seq<V>, n: nat)
    requires WellFormed(s) && s.tx == Move(items, n, 0) && n <= |items|
    ensures Published(s, Again(s, Tx, n + 1), items, n)
  {
    PushSteps(s, items, n, n);
    AgainNext(s, Tx, n + 1);
    hide Again, WriteAll;
  }

  /** How many values the sender accepts when it believes the head to be at `seen`. */
  function Room<V>(s: State<V>, items: seq<V>, seen: nat): nat {
    if |s.pushed| < seen + s.cap then Min(|items|, seen + s.cap - |s.pushed|) else 0
  }

  lemma PlanStep<V>(s: State<V>, items: seq<V>)
    requires Inv(s) && s.tx == Plan(items) && items != []
    ensures WellFormed(s)
    ensures var t := Step(s, Tx);
      && t == s.(tx := t.tx, headCache := t.headCache, hc := t.hc)
      && t.tx == if |s.pushed| == s.hc + s.cap then Refresh(items) else Move(items, Room(s, items, s.hc), 0)
  {
    hide Slots, History, Sub;
    Used(s);
  }

  lemma RefreshStep<V>(s: State<V>, items: seq<V>)
    requires Inv(s) && s.tx == Refresh(items)
    ensures WellFormed(s)
    ensures var t := Step(s, Tx);
      && t == s.(tx := t.tx, headCache := t.headCache, hc := t.hc)
      && t.tx == if |s.pushed| == s.h + s.cap then Ready else Move(items, Room(s, items, s.h), 0)
  {
    hide Slots, History, Sub;
    Used(s);
  }

  lemma PublishedSame<V>(s: State<V>, t: State<V>, u: State<V>, items: seq<V>, m: nat)
    requires t == s.(tx := t.tx, headCache := t.headCache, hc := t.hc) && Published(t, u, items, m)
    ensures Published(s, u, items, m)
  {
  }

  /** A push left alone publishes a first part of what it was offered, and some of it unless nothing was offered or the ring is full. */
  lemma PushAlone<V>(s: State<V>, items: seq<V>) returns (n: nat, m: nat)
    requires Inv(s) && s.tx.Ready?
    ensures WellFormed(s) && n <= |items| + 3
    ensures Published(s, Again(Step(s, Push(items)), Tx, n), items, m)
    ensures m == 0 <==> items == [] || |s.pushed| == s.h + s.cap
    ensures |items| <= 1 || |s.pushed| == s.hc + s.cap || s.hc == s.h ==> m == Room(s, items, s.h)
  {
    assert WellFormed(s) && Counters(s);
    var t := Step(s, Push(items));
    StepInv(s, Push(items));
    assert t == s.(tx := Plan(items));
    hide Slots, History, Pcs;
    AgainOne(t, Tx);
    var u := Step(t, Tx);
    if items == [] {
      assert u == s.(tx := Ready);
      assert s.pushed + items[..0] == s.pushed;
      return 1, 0;
    }
    PlanStep(t, items);
    StepInv(t, Tx);
    hide Step, Again, Published, Inv;
    if u.tx.Move? {
      m := u.tx.n;
      MoveEnds(u, items, m);
      AgainSplit(t, Tx, 1, m + 1);
      PublishedSame(s, u, Again(u, Tx, m + 1), items, m);
      n := m + 2;
    } else {
      n, m := RefreshAlone(u, items);
      AgainSplit(t, Tx, 1, n);
      PublishedSame(s, u, Again(u, Tx, n), items, m);
      n := n + 1;
    }
  }

  lemma RefreshAlone<V>(s: State<V>, items: seq<V>) returns (n: nat, m: nat)
    requires Inv(s) && s.tx == Refresh(items)
    ensures WellFormed(s) && n <= |items| + 2 && Published(s, Again(s, Tx, n), items, m) && m == Room(s, items, s.h)
  {
    assert Counters(s) && Pcs(s);
    RefreshStep(s, items);
    AgainOne(s, Tx);
    hide Step, Inv;
    var u := Step(s, Tx);
    if u.tx.Ready? {
      assert s.pushed + items[..0] == s.pushed;
      n, m := 1, 0;
    } else {
      m := u.tx.n;
      hide Again;
      MoveEnds(u, items, m);
      AgainSplit(s, Tx, 1, m + 1);
      PublishedSame(s, u, Again(u, Tx, m + 1), items, m);
      n := m + 2;
    }
  }

  // ---- taking ----------------------------------------------------------------------------------

  /** The next `m` values have been handed out and the receiver is idle; nothing else changed that the peer sees. */
  ghost predicate HandedOut<V>(s: State<V>, t: State<V>, m: nat) {
    && s.h + m <= |s.pushed| && t.rx.Idle? && t.taken == s.taken + s.pushed[s.h..s.h + m] && t.h == s.h + m
    && t.pushed == s.pushed && t.tx == s.tx && t.destroyed == s.destroyed && t.producerGone == s.producerGone && !t.consumerGone
  }

  lemma NextHeld<V>(s: State<V>, n: nat)
    requires Inv(s) && s.rx == Moving(n, 0)
    ensures WellFormed(s) && n <= s.cap && s.h + n <= |s.pushed| && Filled(s.buf, s.head, n) && Held(s.buf, s.head, n) == s.pushed[s.h..s.h + n]
  {
    hide Slots, History, Cell;
    assert WellFormed(s);
    forall k | 0 <= k < n ensures s.h + k < |s.pushed| && Cell(s.buf, s.head, k) == Some(s.pushed[s.h + k]) { PositionHolds(s, k); }
  }

  lemma TakeEnds<V>(s: State<V>, n: nat)
    requires Inv(s) && s.rx == Moving(n, 0) && !s.consumerGone
    ensures WellFormed(s) && HandedOut(s, Again(s, Rx, n + 1), n)
  {
    hide Inv, EmptyAll, Again, Filled, Held;
    NextHeld(s, n);
    DrainSteps(s, n, n);
    var out := Held(s.buf, s.head, n);
    assert out[..n] == out;
    AgainNext(s, Rx, n + 1);
  }

  /** How many values the receiver takes when it believes the tail to be at `seen`. */
  function Stock<V>(s: State<V>, max: nat, seen: nat): nat { if s.h < seen then Min(seen - s.h, max) else 0 }

  lemma TakeStep<V>(s: State<V>, max: nat)
    requires Inv(s) && s.rx == Take(max)
    ensures WellFormed(s)
    ensures var t := Step(s, Rx);
      && t == s.(rx := t.rx, tailCache := t.tailCache, tc := t.tc)
      && t.rx == if s.h == s.tc then Reload(max) else if max == 0 then (if s.consumerGone then Closed else Idle) else Moving(Stock(s, max, s.tc), 0)
  {
    hide Slots, History, Sub;
    Available(s);
  }

  lemma ReloadStep<V>(s: State<V>, max: nat)
    requires Inv(s) && s.rx == Reload(max)
    ensures WellFormed(s)
    ensures var t := Step(s, Rx);
      && t == s.(rx := t.rx, tailCache := t.tailCache, tc := t.tc)
      && t.rx == if s.h == |s.pushed| || max == 0 then (if s.consumerGone then Closed else Idle) else Moving(Stock(s, max, |s.pushed|), 0)
  {
    hide Slots, History, Sub;
    Available(s);
  }

  lemma HandedSame<V>(s: State<V>, t: State<V>, u: State<V>, m: nat)
    requires t == s.(rx := t.rx, tailCache := t.tailCache, tc := t.tc) && HandedOut(t, u, m)
    ensures HandedOut(s, u, m)
  {
  }

  lemma HandedNone<V>(s: State<V>, t: State<V>)
    requires t == s.(rx := Idle, tailCache := t.tailCache, tc := t.tc) && !s.consumerGone && s.h <= |s.pushed|
    ensures HandedOut(s, t, 0)
  {
    assert s.taken + s.pushed[s.h..s.h] == s.taken;
  }

  lemma ReloadAlone<V>(s: State<V>, max: nat) returns (n: nat, m: nat)
    requires Inv(s) && s.rx == Reload(max) && !s.consumerGone
    ensures WellFormed(s) && n <= m + 2 && HandedOut(s, Again(s, Rx, n), m) && m == Stock(s, max, |s.pushed|)
  {
    assert Counters(s);
    ReloadStep(s, max);
    AgainOne(s, Rx);
    StepInv(s, Rx);
    hide Step, Inv, Again;
    var u := Step(s, Rx);
    if u.rx.Idle? {
      HandedNone(s, u);
      n, m := 1, 0;
    } else {
      m := u.rx.n;
      TakeEnds(u, m);
      AgainSplit(s, Rx, 1, m + 1);
      HandedSame(s, u, Again(u, Rx, m + 1), m);
      n := m + 2;
    }
  }

  /** A pop or drain left alone hands out the next values, at most `max`, and some unless none was asked for or the ring is empty. */
  lemma PopAlone<V>(s: State<V>, max: nat) returns (n: nat, m: nat)
    requires Inv(s) && s.rx.Idle?
    ensures WellFormed(s) && n <= m + 3 && m <= max
    ensures HandedOut(s, Again(Step(s, Pop(max)), Rx, n), m)
    ensures m == 0 <==> max == 0 || s.h == |s.pushed|
    ensures max <= 1 || s.tc == s.h || s.tc == |s.pushed| ==> m == Stock(s, max, |s.pushed|)
  {
    hide Step, Again, Inv;
    Facts(s);
    CallsTake(s, Pop(max), max);
    var t := Step(s, Pop(max));
    AgainOne(t, Rx);
    TakeStep(t, max);
    StepInv(t, Rx);
    var u := Step(t, Rx);
    if u.rx.Idle? {
      HandedNone(s, u);
      n, m := 1, 0;
    } else if u.rx.Moving? {
      m := u.rx.n;
      TakeEnds(u, m);
      AgainSplit(t, Rx, 1, m + 1);
      HandedSame(s, u, Again(u, Rx, m + 1), m);
      n := m + 2;
    } else {
      n, m := ReloadAlone(u, max);
      AgainSplit(t, Rx, 1, n);
      HandedSame(s, u, Again(u, Rx, n), m);
      n := n + 1;
    }
  }

  /** `is_finished` says yes exactly when the sender is gone and the ring is empty. */
  lemma ProbeAlone<V>(s: State<V>)
    requires Inv(s) && s.rx.Idle?
    ensures WellFormed(s)
    ensures Again(Step(s, IsFinished), Rx, 2) == s.(rx := if s.producerGone && s.h == |s.pushed| then Finished else Idle)
  {
    assert WellFormed(s) && Counters(s);
    EqualReduced(|s.pushed|, s.h, s.word);
    var t := Step(s, IsFinished);
    AgainOne(t, Rx);
    AgainNext(t, Rx, 2);
    hide Inv, Again;
  }

  // ---- teardown --------------------------------------------------------------------------------

  /** One turn of the loop that the receiver's drop runs. */
  lemma CloseTurn<V>(s: State<V>) returns (n: nat)
    requires Inv(s) && s.rx.Closing?
    ensures WellFormed(s) && n <= 5
    ensures var t := Again(s, Rx, n);
      && Inv(t) && t.pushed == s.pushed && t.tx == s.tx
      && if s.h == |s.pushed| then t.rx.Closed? && t.h == s.h else t.rx.Closing? && t.h == s.h + 1
  {
    hide Step, Again, Inv;
    Facts(s);
    CallsTake(s, Rx, 1);
    var t := Step(s, Rx);
    AgainOne(s, Rx);
    TakeStep(t, 1);
    StepInv(t, Rx);
    var u := Step(t, Rx);
    AgainNext(s, Rx, 2);
    if u.rx.Moving? {
      CloseMove(u);
      AgainSplit(s, Rx, 2, 2);
      n := 4;
    } else {
      ReloadStep(u, 1);
      StepInv(u, Rx);
      var v := Step(u, Rx);
      AgainNext(s, Rx, 3);
      n := 3;
      if v.rx.Moving? {
        CloseMove(v);
        AgainSplit(s, Rx, 3, 2);
        n := 5;
      }
    }
  }

  lemma CloseMove<V>(s: State<V>)
    requires Inv(s) && s.rx == Moving(1, 0) && s.consumerGone
    ensures WellFormed(s)
    ensures var t := Again(s, Rx, 2); Inv(t) && t.pushed == s.pushed && t.tx == s.tx && t.rx.Closing? && t.h == s.h + 1
  {
    assert WellFormed(s);
    AgainInv(s, Rx, 2);
    PositionHolds(s, 0);
    SlotReduced(s.head, s.word, s.cap);
    assert s.head % s.word == s.head by { assert Counters(s); DivMod(s.head, 0, s.head, s.word); }
    var t := Step(s, Rx);
    AgainOne(s, Rx);
    AgainNext(s, Rx, 2);
    assert t.rx == Moving(1, 1) && t.h == s.h;
    hide Inv, Again, Cell;
  }

  /** Dropping the receiver ends, and empties the ring if nobody pushes meanwhile. */
  lemma {:induction false} CloseAlone<V>(s: State<V>) returns (n: nat)
    requires Inv(s) && s.rx.Closing?
    ensures WellFormed(s) && s.h <= |s.pushed| && n <= 5 * (|s.pushed| - s.h) + 5
    ensures var t := Again(s, Rx, n); Inv(t) && t.rx.Closed? && t.h == |t.pushed| && t.pushed == s.pushed && t.tx == s.tx
    decreases |s.pushed| - s.h
  {
    hide Inv, Step, Again;
    Facts(s);
    n := CloseTurn(s);
    var t := Again(s, Rx, n);
    if s.h < |s.pushed| {
      var m := CloseAlone(t);
      AgainSplit(s, Rx, n, m);
      n := n + m;
    }
  }

  lemma FreeTurn<V>(s: State<V>)
    requires Inv(s) && s.rx.Closed? && s.tx.Dropped?
    ensures WellFormed(s)
    ensures var t := Step(s, Free);
      if s.h == |s.pushed| then t.rx.Freed? else t.h == s.h + 1 && t.pushed == s.pushed && t.rx.Closed? && t.tx.Dropped?
  {
    Facts(s);
    StepInv(s, Free);
    EqualReduced(|s.pushed|, s.h, s.word);
    hide Slots;
    assert History(Step(s, Free));
  }

  /** The last end to go frees the ring, whatever was left in it. */
  lemma {:induction false} FreeAlone<V>(s: State<V>)
    requires Inv(s) && s.rx.Closed? && s.tx.Dropped?
    ensures WellFormed(s) && s.h <= |s.pushed| && Again(s, Free, |s.pushed| - s.h + 1).rx.Freed?
    decreases |s.pushed| - s.h
  {
    hide Inv, Again, Step;
    Facts(s);
    FreeTurn(s);
    StepInv(s, Free);
    AgainOne(s, Free);
    var t := Step(s, Free);
    if s.h < |s.pushed| {
      FreeAlone(t);
      AgainSplit(s, Free, 1, |s.pushed| - s.h);
    }
  }

  // ---- every run -------------------------------------------------------------------------------

  function Repeat<V>(e: Event<V>, n: nat): (es: seq<Event<V>>)
    ensures |es| == n
  {
    if n == 0 then [] else Repeat(e, n - 1) + [e]
  }

  predicate Sized(cap: nat, word: nat) { 0 < cap && 2 * cap <= word && word % cap == 0 }

  lemma RunNext<V>(cap: nat, word: nat, es: seq<Event<V>>, e: Event<V>)
    requires Sized(cap, word)
    ensures Run(cap, word, es + [e]) == Step(Run(cap, word, es), e)
  {
    hide Step;
    assert (es + [e])[..|es|] == es;
  }

  lemma {:induction false} RunAgain<V>(cap: nat, word: nat, es: seq<Event<V>>, e: Event<V>, n: nat)
    requires Sized(cap, word)
    ensures Run(cap, word, es + Repeat(e, n)) == Again(Run(cap, word, es), e, n)
  {
    hide Step, Run;
    if n == 0 {
      assert es + [] == es;
    } else {
      RunAgain(cap, word, es, e, n - 1);
      RunNext(cap, word, es + Repeat(e, n - 1), e);
      assert es + Repeat(e, n) == es + Repeat(e, n - 1) + [e];
    }
  }

  /** In every run, a push left alone publishes a first part of its items: all that fits if it refreshed or offered one, and none
      exactly when nothing was offered or the ring is full. */
  lemma PushCompletes<V>(cap: nat, word: nat, es: seq<Event<V>>, items: seq<V>) returns (n: nat, m: nat)
    requires Sized(cap, word) && Run(cap, word, es).tx.Ready?
    ensures n <= |items| + 3 && m <= |items|
    ensures var (s, t) := (Run(cap, word, es), Run(cap, word, es + [Push(items)] + Repeat(Tx, n)));
      && t.tx.Ready? && t.pushed == s.pushed + items[..m] && t.taken == s.taken && t.rx == s.rx
      && (m == 0 <==> items == [] || |s.pushed| == s.h + cap)
      && (|items| == 1 || |s.pushed| == s.hc + s.cap || s.hc == s.h ==> m == Room(s, items, s.h))
  {
    hide Run, Inv, Step, Again;
    RunInv(cap, word, es);
    n, m := PushAlone(Run(cap, word, es), items);
    RunNext(cap, word, es, Push(items));
    RunAgain(cap, word, es + [Push(items)], Tx, n);
  }

  /** In every run, a pop or drain left alone hands out the next values, at most `max`, and none exactly when none was asked for or
      the ring is empty. */
  lemma PopCompletes<V>(cap: nat, word: nat, es: seq<Event<V>>, max: nat) returns (n: nat, m: nat)
    requires Sized(cap, word) && Run(cap, word, es).rx.Idle?
    ensures n <= m + 3 && m <= max
    ensures var (s, t) := (Run(cap, word, es), Run(cap, word, es + [Pop(max)] + Repeat(Rx, n)));
      && s.h + m <= |s.pushed| && t.rx.Idle? && t.taken == s.taken + s.pushed[s.h..s.h + m] && t.pushed == s.pushed && t.tx == s.tx
      && (m == 0 <==> max == 0 || s.h == |s.pushed|)
      && (max == 1 || s.tc == s.h || s.tc == |s.pushed| ==> m == Stock(s, max, |s.pushed|))
  {
    hide Run, Inv, Step, Again;
    RunInv(cap, word, es);
    n, m := PopAlone(Run(cap, word, es), max);
    RunNext(cap, word, es, Pop(max));
    RunAgain(cap, word, es + [Pop(max)], Rx, n);
  }

  /** In every run, `is_finished` left alone says yes exactly when the sender is gone and everything pushed was handed out. */
  lemma FinishedSeen<V>(cap: nat, word: nat, es: seq<Event<V>>)
    requires Sized(cap, word) && Run(cap, word, es).rx.Idle?
    ensures var (s, t) := (Run(cap, word, es), Run(cap, word, es + [IsFinished] + Repeat(Rx, 2)));
      && t.taken == s.taken && t.pushed == s.pushed
      && t.rx == if s.producerGone && s.taken == s.pushed then Finished else Idle
  {
    hide Run, Step, Again;
    var s := Run(cap, word, es);
    RunInv(cap, word, es);
    assert s.pushed[..|s.pushed|] == s.pushed && s.taken + [] == s.taken;
    assert s.h == |s.pushed| <==> s.taken == s.pushed;
    hide Inv;
    ProbeAlone(s);
    RunNext(cap, word, es, IsFinished);
    RunAgain(cap, word, es + [IsFinished], Rx, 2);
  }

  /** In every run, dropping the receiver, then the sender, each left alone, frees the ring with every value accounted for. */
  lemma TeardownEnds<V>(cap: nat, word: nat, es: seq<Event<V>>) returns (n: nat, m: nat)
    requires Sized(cap, word) && Run(cap, word, es).rx.Closing?
    ensures var t := Run(cap, word, es + Repeat(Rx, n));
      && t.rx.Closed? && t.pushed == Run(cap, word, es).pushed && t.tx == Run(cap, word, es).tx
      && t.taken + t.destroyed == t.pushed
    ensures Run(cap, word, es).tx.Dropped? ==> Run(cap, word, es + Repeat(Rx, n) + Repeat(Free, m)).rx.Freed?
  {
    hide Run, Step, Again;
    RunInv(cap, word, es);
    var s := Run(cap, word, es);
    n := CloseAlone(s);
    RunAgain(cap, word, es, Rx, n);
    var t := Again(s, Rx, n);
    assert t.pushed[..t.h] == t.pushed;
    hide Inv;
    m := |t.pushed| - t.h + 1;
    if t.tx.Dropped? { FreeAlone(t); }
    RunAgain(cap, word, es + Repeat(Rx, n), Free, m);
  }

  /** In every run, once the receiver has gone and the sender goes too, the ring is freed. */
  lemma FreeEnds<V>(cap: nat, word: nat, es: seq<Event<V>>) returns (n: nat)
    requires Sized(cap, word) && Run(cap, word, es).rx.Closed? && Run(cap, word, es).tx.Dropped?
    ensures Run(cap, word, es + Repeat(Free, n)).rx.Freed?
  {
    hide Run, Step, Again, Inv;
    RunInv(cap, word, es);
    var s := Run(cap, word, es);
    FreeAlone(s);
    n := |s.pushed| - s.h + 1;
    RunAgain(cap, word, es, Free, n);
  }
}
