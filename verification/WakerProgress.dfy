/** What one poll of a send future achieves: it sends what fits, up to its budget, and otherwise leaves itself armed. */
module WakerProgress {
  import opened Wrappers
  import opened Waker

  function Alone(s: State, n: nat): State
    decreases n
  {
    if n == 0 then s else Alone(FutureStep(s), n - 1)
  }

  lemma {:induction false} AloneSplit(s: State, a: nat, b: nat)
    ensures Alone(s, a + b) == Alone(Alone(s, a), b)
    decreases a
  {
    hide FutureStep;
    if a > 0 { AloneSplit(FutureStep(s), a - 1, b); }
  }

  function Least(a: int, b: int): int { if a < b then a else b }

  /** How many values one poll sends: one, or for a batch as many as are left, fit, and the budget allows. */
  function Sent(s: State): int {
    if s.gone || s.items == 0 then 0
    else if s.batch then Least(Least(s.items, s.cap - s.used), s.budget)
    else Least(1, s.cap - s.used)
  }

  /** After a poll: what was sent, and whether the future is done, has yielded, or waits with its waker in place. */
  ghost predicate Polled(s: State, t: State) {
    var k := Sent(s);
    && t.used == s.used + k && t.items == s.items - k && t.cap == s.cap && t.gone == s.gone && t.notifiers == s.notifiers && t.batch == s.batch
    && if s.gone || t.items == 0 || (!s.batch && k == 1) then t.pc.Idle? && (s.needsClear ==> !t.waiting && t.slot.None?) && !t.needsClear
       else t.pc.Pending? && if s.batch && k == s.budget then t.woken
                             else t.used == t.cap && t.waiting && t.slot == Some(t.arms) && t.arms == s.arms + 1 && !t.woken && t.needsClear
  }

  /** Clearing ends the poll. */
  lemma ClearEnds(s: State, next: Then)
    requires s.pc == ClearCheck(next)
    ensures var n := if s.needsClear then 3 else 1; var t := Alone(s, n);
      t == Cleared(s.(needsClear := false, waiting := s.waiting && !s.needsClear, slot := if s.needsClear then None else s.slot), next)
  {
    var a := FutureStep(s);
    if s.needsClear {
      var b := FutureStep(a);
      var c := FutureStep(b);
      assert Alone(b, 1) == Alone(c, 0) == c;
      assert Alone(a, 2) == Alone(b, 1);
      assert Alone(s, 3) == Alone(a, 2);
    } else {
      assert Alone(a, 0) == a;
      assert Alone(s, 1) == Alone(a, 0);
    }
  }

  lemma ArmFirst(s: State)
    requires s.pc.FirstGone? && s.items > 0 && !s.gone && s.used == s.cap
    ensures Alone(s, 3) == s.(pc := ArmRegister, needsClear := true)
  {
    var a := FutureStep(s);
    assert a == s.(pc := FirstPush);
    var b := FutureStep(a);
    assert b == s.(pc := ArmMark);
    var c := FutureStep(b);
    assert Alone(b, 1) == Alone(c, 0) == c;
    assert Alone(a, 2) == Alone(b, 1);
  }

  lemma ArmSecond(s: State)
    requires s.pc.ArmRegister? && s.items > 0 && !s.gone && s.used == s.cap
    ensures Alone(s, 4) == s.(pc := Pending, arms := s.arms + 1, slot := Some(s.arms + 1), woken := false, waiting := true)
  {
    var a := FutureStep(s);
    var b := FutureStep(a);
    assert b == s.(pc := RecheckGone, arms := s.arms + 1, slot := Some(s.arms + 1), woken := false, waiting := true);
    var c := FutureStep(b);
    assert c == b.(pc := RecheckPush);
    var d := FutureStep(c);
    assert Alone(c, 1) == Alone(d, 0) == d;
    assert Alone(b, 2) == Alone(c, 1);
    assert Alone(a, 3) == Alone(b, 2);
  }

  /** With the ring full, the future arms, looks again and waits. */
  lemma ArmEnds(s: State)
    requires s.pc.FirstGone? && s.items > 0 && !s.gone && s.used == s.cap
    ensures Alone(s, 7) == s.(pc := Pending, needsClear := true, arms := s.arms + 1, slot := Some(s.arms + 1), woken := false, waiting := true)
  {
    hide Alone, FutureStep;
    ArmFirst(s);
    ArmSecond(Alone(s, 3));
    AloneSplit(s, 3, 4);
  }

  lemma TwoSteps(s: State)
    ensures Alone(s, 1) == FutureStep(s) && Alone(s, 2) == FutureStep(FutureStep(s))
  {
    hide FutureStep;
    var a := FutureStep(s);
    assert Alone(FutureStep(a), 0) == FutureStep(a);
    assert Alone(a, 1) == FutureStep(a) && Alone(a, 0) == a;
  }

  /** A poll that finds nothing to do for it, or nobody, is over. */
  lemma OverEnds(s: State) returns (n: nat)
    requires s.pc.FirstGone? && (s.gone || s.items == 0)
    ensures n <= 4 && Polled(s, Alone(s, n))
  {
    var a := FutureStep(s);
    TwoSteps(s);
    assert a == s.(pc := ClearCheck(Finish));
    hide FutureStep, Alone;
    ClearEnds(a, Finish);
    n := if s.needsClear then 3 else 1;
    AloneSplit(s, 1, n);
    n := n + 1;
  }

  lemma OneSent(s: State)
    requires s.pc.FirstGone? && s.items > 0 && !s.gone && s.used < s.cap && s.budget > 0
    ensures var b := Alone(s, 2);
      && b == s.(used := s.used + 1, items := s.items - 1, budget := s.budget - 1, pc := b.pc)
      && b.pc == if s.batch && b.budget > 0 && b.items > 0 then FirstGone else ClearCheck(if s.batch && b.items > 0 then Yield else Finish)
  {
    TwoSteps(s);
    assert FutureStep(s) == s.(pc := FirstPush);
  }

  /** A poll left alone ends within a bounded number of steps, having sent exactly what it could. */
  lemma {:induction false} PollEnds(s: State) returns (n: nat)
    requires s.pc.FirstGone? && s.used <= s.cap && s.budget > 0
    ensures n <= 2 * s.items + 7 && Polled(s, Alone(s, n))
    decreases s.items
  {
    hide FutureStep, Alone;
    if s.gone || s.items == 0 {
      n := OverEnds(s);
    } else if s.used == s.cap {
      ArmEnds(s);
      n := 7;
    } else {
      OneSent(s);
      var b := Alone(s, 2);
      if b.pc.FirstGone? {
        n := PollEnds(b);
        AloneSplit(s, 2, n);
        PolledTogether(s, b, Alone(b, n));
      } else {
        ClearEnds(b, b.pc.next);
        n := if b.needsClear then 3 else 1;
        AloneSplit(s, 2, n);
      }
      n := n + 2;
    }
  }

  /** One value sent, and the rest of the poll. */
  lemma PolledTogether(s: State, b: State, t: State)
    requires s.items > 1 && s.used < s.cap && s.budget > 1 && s.batch && !s.gone && s.pc.FirstGone?
    requires b == s.(used := s.used + 1, items := s.items - 1, budget := s.budget - 1) && Polled(b, t)
    ensures Polled(s, t)
  {
  }

  function Steps(n: nat): (es: seq<Event>)
    ensures |es| == n
  {
    if n == 0 then [] else Steps(n - 1) + [Future]
  }

  lemma {:induction false} AloneLast(s: State, n: nat)
    requires n > 0
    ensures Alone(s, n) == FutureStep(Alone(s, n - 1))
    decreases n
  {
    hide FutureStep;
    if n > 1 { AloneLast(FutureStep(s), n - 1); }
  }

  lemma RunNext(cap: nat, notifiers: nat, es: seq<Event>, e: Event)
    ensures Run(cap, notifiers, es + [e]) == Step(Run(cap, notifiers, es), e)
  {
    hide Step;
    assert (es + [e])[..|es|] == es;
  }

  lemma {:induction false} RunAlone(cap: nat, notifiers: nat, es: seq<Event>, n: nat)
    ensures Run(cap, notifiers, es + Steps(n)) == Alone(Run(cap, notifiers, es), n)
  {
    hide FutureStep, Run;
    if n == 0 {
      assert es + [] == es;
    } else {
      RunAlone(cap, notifiers, es, n - 1);
      RunNext(cap, notifiers, es + Steps(n - 1), Future);
      AloneLast(Run(cap, notifiers, es), n);
      assert es + Steps(n) == es + Steps(n - 1) + [Future];
    }
  }

  /** In every run, a send begun, or polled again while pending, and left alone ends its poll: with the receiver gone it sends nothing and is
      over; otherwise it sends as many values as fit, at most its budget; what is left waits with the waker registered, or has yielded with
      the task woken. */
  lemma PollCompletes(cap: nat, notifiers: nat, es: seq<Event>, e: Event) returns (n: nat)
    requires var s := Run(cap, notifiers, es); (e.Begin? && s.pc.Idle? && e.items > 0) || (e == Poll && s.pc.Pending?)
    ensures var s := Run(cap, notifiers, es + [e]); n <= 2 * s.items + 7 && s.budget == BUDGET
    ensures var (s, t) := (Run(cap, notifiers, es + [e]), Run(cap, notifiers, es + [e] + Steps(n))); Polled(s, t)
  {
    hide Run;
    RunInv(cap, notifiers, es);
    RunNext(cap, notifiers, es, e);
    var s := Run(cap, notifiers, es + [e]);
    assert s.pc.FirstGone? && s.used <= s.cap && s.budget == BUDGET;
    hide Step, FutureStep, Polled;
    n := PollEnds(s);
    RunAlone(cap, notifiers, es + [e], n);
  }
}
