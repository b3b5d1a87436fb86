/** Claims succeed while a slot is free, receives end, and the slots of producers that have gone come back. */
module PoolProgress {
  import opened Items
  import opened Pool
  import opened PoolSafety

  function Again<V>(s: State<V>, e: Event<V>, n: nat): (t: State<V>)
    requires WellFormed(s)
    ensures WellFormed(t) && t.n == s.n && t.word == s.word
    decreases n
  {
    if n == 0 then s else Again(Step(s, e), e, n - 1)
  }

  lemma {:induction false} AgainSplit<V>(s: State<V>, e: Event<V>, a: nat, b: nat)
    requires WellFormed(s)
    ensures Again(s, e, a + b) == Again(Again(s, e, a), e, b)
    decreases a
  {
    hide Step;
    if a > 0 { AgainSplit(Step(s, e), e, a - 1, b); }
  }

  lemma AgainOne<V>(s: State<V>, e: Event<V>)
    requires WellFormed(s)
    ensures Again(s, e, 1) == Step(s, e)
  {
    hide Step;
    assert Again(Step(s, e), e, 0) == Step(s, e);
  }

  // ---- claiming --------------------------------------------------------------------------------------

  lemma TakesBit<V>(s: State<V>, c: nat)
    requires WellFormed(s) && c < |s.claimers| && s.claimers[c].pc.Load?
    ensures var (a, i) := (Step(s, Claim(c, false)), Lowest(s.free));
      if i == s.n then a == SetClaimer(s, c, Answered)
      else Step(a, Claim(c, false)) == SetClaimer(s, c, TakeSlot(i)).(free := s.free[i := false], at := s.at[i := Reserved(c)])
  {
    var a := Step(s, Claim(c, false));
    if Lowest(s.free) < s.n {
      assert a == SetClaimer(s, c, Cas(s.free));
      assert s.claimers[c := Claimer(s.claimers[c].h, Cas(s.free))][c := Claimer(s.claimers[c].h, TakeSlot(Lowest(s.free)))]
        == s.claimers[c := Claimer(s.claimers[c].h, TakeSlot(Lowest(s.free)))];
    }
  }

  lemma TakesSender<V>(s: State<V>, c: nat, i: nat)
    requires WellFormed(s) && c < |s.claimers| && i < s.n && s.claimers[c].pc == TakeSlot(i) && s.slots[i]
    ensures var t := Step(Step(s, Claim(c, false)), Claim(c, false));
      && |t.claimers| == |s.claimers| && t.claimers[c].pc.Answered? && t.producers == s.producers + [Producer(i, Live, [])]
      && t.live == s.live + 1 && t.free == s.free && t.slots == s.slots[i := false] && t.at[i] == With(|s.producers|)
  {
    var a := Step(s, Claim(c, false));
    assert a == SetClaimer(s, c, Hold(i)).(slots := s.slots[i := false], at := s.at[i := Holding(c)]);
  }

  /** In every run, a claim that meets nobody takes the lowest free slot and comes back with its producer, or comes back with none exactly if
      no slot is free. */
  lemma ClaimCompletes<V>(n: nat, cap: nat, word: nat, es: seq<Event<V>>, c: nat)
    requires 0 < n < word
    requires var s := Run(n, cap, word, es); c < |s.claimers| && s.claimers[c].pc.Load?
    ensures var s := Run(n, cap, word, es); var i := Lowest(s.free); var t := Again(s, Claim(c, false), if i == n then 1 else 4);
      && |t.claimers| == |s.claimers| && t.claimers[c].pc.Answered?
      && if forall j :: 0 <= j < n ==> !s.free[j] then t.producers == s.producers && t.free == s.free && t.slots == s.slots
         else i < n && s.free[i] && t.producers == s.producers + [Producer(i, Live, [])] && t.live == s.live + 1
              && t.free == s.free[i := false] && t.slots == s.slots[i := false]
  {
    hide Run, Lowest;
    var s := Run(n, cap, word, es);
    BitMeansSender(n, cap, word, es);
    var e: Event<V> := Claim(c, false);
    var i := Lowest(s.free);
    TakesBit(s, c);
    AgainOne(s, e);
    if i < n {
      var a := Step(Step(s, e), e);
      TakesSender(a, c, i);
      hide Step;
      AgainOne(Step(s, e), e);
      AgainOne(a, e);
      AgainOne(Step(a, e), e);
      AgainSplit(s, e, 1, 3);
      AgainSplit(Step(s, e), e, 1, 2);
      AgainSplit(a, e, 1, 1);
      assert s.free[i];
    }
  }

  // ---- receiving -------------------------------------------------------------------------------------

  /** The steps a call may still take once nobody can send. */
  function Left<V>(s: State<V>): nat {
    var x := s.rx;
    (if x.last || x.pc.CheckLive? then 0 else 4 * s.n + 10) +
      match x.pc
      case Entry => 4 * s.n + 2
      case Pass(k) => 4 * k + 1
      case Check(k, _) => 4 * k + 4
      case WriteSlot(k, _) => 4 * k + 3
      case SetBit(k, _) => 4 * k + 2
      case CheckLive => 4 * s.n + 3
      case _ => 0
  }

  /** Nothing is left to hand over. */
  ghost predicate Bare<V>(s: State<V>) { s.rx.staging == [] && forall i :: 0 <= i < |s.rings| ==> s.rings[i].queue == [] }

  /** One step of a blocking call: it hands over a value, or it comes nearer to its end with every value still where it was. */
  ghost predicate Nearer<V>(s: State<V>, t: State<V>) {
    && t.live == s.live
    && if t.rx.pc.Idle? then s.rx.out < t.rx.out && |t.rx.out| == |s.rx.out| + 1
       else
         && t.rx.out == s.rx.out && t.rx.staging == s.rx.staging && t.rx.kind == s.rx.kind && |t.rings| == |s.rings|
         && (forall r :: 0 <= r < |s.rings| ==> t.rings[r].queue == s.rings[r].queue)
         && (t.rx.pc.Finished? || Left(t) < Left(s))
  }

  lemma QuietNearer<V>(s: State<V>)
    requires WellFormed(s) && s.live == 0 && s.rx.kind.Recv? && (s.rx.pc.Entry? || s.rx.pc.CheckLive?)
    ensures Nearer(s, GoStep(s, 0))
  {
  }

  lemma PassNearer<V>(s: State<V>)
    requires WellFormed(s) && s.live == 0 && s.rx.kind.Recv? && s.rx.pc.Pass?
    ensures Nearer(s, GoStep(s, 0))
  {
  }

  lemma VisitNearer<V>(s: State<V>)
    requires WellFormed(s) && s.live == 0 && s.rx.kind.Recv? && Visiting(s.rx.pc) && !GoStep(s, 0).fault
    ensures Nearer(s, GoStep(s, 0))
  {
  }

  lemma StepNearer<V>(s: State<V>)
    requires Inv(s) && s.live == 0 && s.rx.kind.Recv? && !Resting(s.rx.pc)
    ensures Inv(GoStep(s, 0)) && Nearer(s, GoStep(s, 0))
  {
    hide GoStep, Counts, RingOk, ClaimOk, ProdOk, Kept, Nearer, Known, RxOk;
    GoKeeps(s, 0);
    if s.rx.pc.Pass? { PassNearer(s); }
    else if Visiting(s.rx.pc) { VisitNearer(s); }
    else { QuietNearer(s); }
  }

  /** A call that has nothing to hand over does not. */
  lemma BareHolds<V>(s: State<V>)
    requires WellFormed(s) && Bare(s) && s.rx.kind.Recv? && !Resting(s.rx.pc)
    ensures !GoStep(s, 0).rx.pc.Idle?
  {
    if s.rx.pc.Pass? && s.rx.pc.k > 0 { assert s.rings[s.rx.cursor % s.n].queue == []; }
  }

  /** A blocking receive, wherever it stands once nobody can send, ends within a bounded number of its own steps, with a value or with the end;
      with the end for certain if nothing is left. */
  lemma {:induction false} EndsFrom<V>(s: State<V>) returns (n: nat)
    requires Inv(s) && s.live == 0 && s.rx.kind.Recv? && !Resting(s.rx.pc)
    ensures WellFormed(s) && n <= Left(s) + 1
    ensures var u := Again(s, Go(0), n);
      && Inv(u) && u.live == 0 && (Bare(s) ==> u.rx.pc.Finished?)
      && if u.rx.pc.Finished? then u.rx.out == s.rx.out && u.rx.staging == s.rx.staging && (forall r :: 0 <= r < s.n ==> u.rings[r].queue == s.rings[r].queue)
         else u.rx.pc.Idle? && s.rx.out < u.rx.out && |u.rx.out| == |s.rx.out| + 1
    decreases Left(s)
  {
    assert WellFormed(s);
    hide GoStep, Inv, Left;
    var t := GoStep(s, 0);
    StepNearer(s);
    AgainOne(s, Go(0));
    assert Again(t, Go(0), 0) == t;
    if t.rx.pc.Idle? {
      n := 1;
      if Bare(s) { BareHolds(s); }
    } else if t.rx.pc.Finished? {
      n := 1;
    } else {
      n := EndsFrom(t);
      n := n + 1;
    }
  }

  /** If the last sweep looked everywhere, the end means that nothing was left. */
  lemma FinishedBare<V>(s: State<V>)
    requires Inv(s) && s.rx.pc.Finished? && (s.word % s.n == 0 || s.rx.start + s.n <= s.word)
    ensures Bare(s)
  {
    hide Counts, RingOk, ClaimOk, ProdOk, Kept, Known;
    SweepComplete(s.rx.start, s.n, s.word);
    forall i | 0 <= i < s.n ensures s.rings[i].queue == [] { assert Visited(i, s.rx.start, s.n, s.word); }
  }

  // ---- a sweep that finds nothing to hand over ---------------------------------------------------------

  /** Since `s`, the sweep has freed the slots of the spent rings it passed, and changed no other. */
  ghost predicate Sweeping<V>(s: State<V>, u: State<V>) {
    && WellFormed(s) && WellFormed(u) && u.n == s.n && u.word == s.word && Bare(u) && u.rx.out == s.rx.out
    && u.rx.pc.Pass? && u.rx.kind.TryRecv? && u.rx.pc.k <= s.n
    && (forall i :: 0 <= i < s.n ==> u.at[i] == s.at[i] || (s.at[i].Spent? && u.at[i].Free?))
    && (forall t :: 0 <= t < s.n - u.rx.pc.k ==> !u.at[Visit(u.rx.start, t, s.n, s.word)].Spent?)
  }

  /** What one visit does: a spent ring is reset, its sender put back and its bit set. */
  ghost predicate Turned<V>(u: State<V>, t: State<V>, i: nat, k: nat)
    requires i < |u.at|
  {
    && |t.rings| == |u.rings| && (forall r :: 0 <= r < |u.rings| ==> t.rings[r].queue == u.rings[r].queue)
    && t.rx == u.rx.(pc := Pass(k), cursor := t.rx.cursor)
    && t.at == u.at[i := if u.at[i].Spent? then Free else u.at[i]]
  }

  lemma SpentIsGone<V>(s: State<V>, i: nat)
    requires Inv(s) && i < s.n && s.at[i].Spent?
    ensures s.rings[i].gone && !s.slots[i] && !s.free[i]
  {
    assert RingOk(s, i);
  }

  lemma SpentTurn<V>(u: State<V>, i: nat, k: nat)
    requires WellFormed(u) && u.rx.pc == Check(k, i) && i < u.n && u.at[i].Spent? && u.rings[i].gone && u.rings[i].queue == []
    requires !u.slots[i] && !u.free[i]
    ensures var t := GoStep(GoStep(GoStep(u, 0), 0), 0); Turned(u, t, i, k)
  {
    var a := GoStep(u, 0);
    assert a == u.(rings := u.rings[i := u.rings[i].(gone := false)], at := u.at[i := Reset], rx := u.rx.(pc := WriteSlot(k, i)));
    var b := GoStep(a, 0);
    assert b == a.(slots := u.slots[i := true], at := u.at[i := Written], rx := u.rx.(pc := SetBit(k, i)));
    assert u.at[i := Written][i := Free] == u.at[i := Free];
  }

  lemma OtherTurn<V>(u: State<V>, i: nat, k: nat)
    requires WellFormed(u) && u.rx.pc == Check(k, i) && i < u.n && !u.at[i].Spent?
    ensures Turned(u, GoStep(u, 0), i, k)
  {
  }

  lemma LooksAt<V>(u: State<V>, k: nat)
    requires WellFormed(u) && Bare(u) && u.rx.pc == Pass(k) && k > 0 && u.rx.kind.TryRecv?
    ensures GoStep(u, 0) == u.(rx := u.rx.(pc := Check(k - 1, u.rx.cursor % u.n)))
  {
    assert u.rings[u.rx.cursor % u.n].queue == [];
  }

  lemma Cursor<V>(u: State<V>)
    requires Inv(u) && u.rx.pc.Pass? && u.rx.pc.k <= u.n
    ensures u.rx.cursor % u.n == Visit(u.rx.start, u.n - u.rx.pc.k, u.n, u.word) < u.n
  {
    hide Counts, RingOk, ClaimOk, ProdOk, Kept, Known, Swept;
  }

  lemma TurnSweeps<V>(s: State<V>, u: State<V>, t: State<V>)
    requires Sweeping(s, u) && u.rx.pc.k > 0 && WellFormed(t) && t.n == u.n && t.word == u.word
    requires Turned(u, t, Visit(u.rx.start, u.n - u.rx.pc.k, u.n, u.word), u.rx.pc.k - 1)
    ensures Sweeping(s, t)
  {
  }

  lemma Opens<V>(s: State<V>, u: State<V>)
    requires Inv(u) && Sweeping(s, u) && u.rx.pc.k > 0
    ensures WellFormed(u) && u.rx.cursor % u.n == Visit(u.rx.start, u.n - u.rx.pc.k, u.n, u.word) < u.n
    ensures var a := GoStep(u, 0);
      Inv(a) && WellFormed(a) && a == u.(rx := u.rx.(pc := Check(u.rx.pc.k - 1, u.rx.cursor % u.n))) && a.rings[u.rx.cursor % u.n].queue == []
  {
    hide Inv, GoStep;
    Cursor(u);
    LooksAt(u, u.rx.pc.k);
    GoKeeps(u, 0);
  }

  lemma VisitTurn<V>(s: State<V>, u: State<V>) returns (m: nat)
    requires Inv(u) && Sweeping(s, u) && u.rx.pc.k > 0
    ensures WellFormed(u)
    ensures var t := Again(u, Go(0), m); Inv(t) && Sweeping(s, t) && t.rx.pc.k == u.rx.pc.k - 1 && t.rx.start == u.rx.start
  {
    Opens(s, u);
    hide Inv, GoStep, Sweeping, WellFormed;
    var k := u.rx.pc.k;
    var i := u.rx.cursor % u.n;
    var a := GoStep(u, 0);
    AgainOne(u, Go(0));
    var t;
    if u.at[i].Spent? {
      SpentIsGone(a, i);
      SpentTurn(a, i, k - 1);
      t := GoStep(GoStep(GoStep(a, 0), 0), 0);
      AgainThree(a);
      AgainSplit(u, Go(0), 1, 3);
      GoKeeps(a, 0);
      GoKeeps(GoStep(a, 0), 0);
      GoKeeps(GoStep(GoStep(a, 0), 0), 0);
      m := 4;
    } else {
      OtherTurn(a, i, k - 1);
      t := GoStep(a, 0);
      AgainOne(a, Go(0));
      AgainSplit(u, Go(0), 1, 1);
      GoKeeps(a, 0);
      m := 2;
    }
    assert Turned(u, t, i, k - 1);
    TurnSweeps(s, u, t);
  }

  lemma AgainThree<V>(s: State<V>)
    requires WellFormed(s)
    ensures Again(s, Go(0), 3) == GoStep(GoStep(GoStep(s, 0), 0), 0)
  {
    hide GoStep;
    AgainOne(s, Go(0));
    AgainOne(GoStep(s, 0), Go(0));
    AgainOne(GoStep(GoStep(s, 0), 0), Go(0));
    AgainSplit(s, Go(0), 1, 2);
    AgainSplit(GoStep(s, 0), Go(0), 1, 1);
  }

  lemma {:induction false} SweepEnds<V>(s: State<V>, u: State<V>) returns (m: nat)
    requires Inv(u) && Sweeping(s, u)
    ensures WellFormed(u)
    ensures var t := Again(u, Go(0), m);
      && Inv(t) && Sweeping(s, t) && t.rx.pc.k == 0 && t.rx.start == u.rx.start
    decreases u.rx.pc.k
  {
    hide Inv, Step;
    if u.rx.pc.k == 0 {
      m := 0;
    } else {
      m := VisitTurn(s, u);
      var t := Again(u, Go(0), m);
      var r := SweepEnds(s, t);
      AgainSplit(u, Go(0), m, r);
      m := m + r;
    }
  }

  // ---- every run ---------------------------------------------------------------------------------------

  function Repeat<V>(e: Event<V>, n: nat): (es: seq<Event<V>>)
    ensures |es| == n
  {
    if n == 0 then [] else [e] + Repeat(e, n - 1)
  }

  lemma RunNext<V>(n: nat, cap: nat, word: nat, es: seq<Event<V>>, e: Event<V>)
    requires 0 < n < word
    ensures Run(n, cap, word, es + [e]) == Step(Run(n, cap, word, es), e)
  {
    hide Step;
    assert (es + [e])[..|es|] == es;
  }

  lemma {:induction false} RunAgain<V>(n: nat, cap: nat, word: nat, es: seq<Event<V>>, e: Event<V>, m: nat)
    requires 0 < n < word
    ensures Run(n, cap, word, es + Repeat(e, m)) == Again(Run(n, cap, word, es), e, m)
    decreases m
  {
    hide Step, Run;
    if m == 0 {
      assert es + [] == es;
    } else {
      RunNext(n, cap, word, es, e);
      RunAgain(n, cap, word, es + [e], e, m - 1);
      assert es + Repeat(e, m) == es + [e] + Repeat(e, m - 1);
    }
  }

  /** In every run, a blocking receive that is under way once nobody can send ends within a bounded number of its own steps: with the end if
      nothing is left, and otherwise with a value unless its last sweep wrapped past a shard. */
  lemma EndsWithin<V>(n: nat, cap: nat, word: nat, es: seq<Event<V>>) returns (m: nat)
    requires 0 < n < word
    requires var s := Run(n, cap, word, es); s.live == 0 && s.rx.kind.Recv? && !Resting(s.rx.pc)
    ensures m <= Left(Run(n, cap, word, es)) + 1
    ensures var (s, u) := (Run(n, cap, word, es), Run(n, cap, word, es + Repeat(Go(0), m)));
      && (if u.rx.pc.Finished? then u.rx.out == s.rx.out else u.rx.pc.Idle? && s.rx.out < u.rx.out && |u.rx.out| == |s.rx.out| + 1)
      && (Bare(s) ==> u.rx.pc.Finished?)
      && (u.rx.pc.Finished? && (word % n == 0 || u.rx.start + n <= word) ==> Bare(s))
  {
    hide Run, Inv, Step, Left;
    RunInv(n, cap, word, es);
    var s := Run(n, cap, word, es);
    m := EndsFrom(s);
    RunAgain(n, cap, word, es, Go(0), m);
    var u := Again(s, Go(0), m);
    if u.rx.pc.Finished? && (word % n == 0 || u.rx.start + n <= word) {
      FinishedBare(u);
      assert forall r :: 0 <= r < n ==> s.rings[r].queue == u.rings[r].queue;
    }
  }

  lemma BeginsSweep<V>(s: State<V>)
    requires Inv(s) && Resting(s.rx.pc) && Bare(s)
    ensures WellFormed(s)
    ensures var t := Step(Step(s, Call(TryRecv)), Go(0)); Inv(t) && Sweeping(s, t) && t.rx.start == s.rx.cursor && t.rx.pc.k == s.n
  {
    assert WellFormed(s);
    StepKeeps(s, Call(TryRecv));
    var a := Step(s, Call(TryRecv));
    assert a == s.(rx := a.rx) && a.rx.pc.Entry? && a.rx.staging == [];
    GoKeeps(a, 0);
    hide Inv;
  }

  lemma SweepOver<V>(s: State<V>, u: State<V>)
    requires Inv(u) && Sweeping(s, u) && u.rx.pc.k == 0 && (u.word % u.n == 0 || u.rx.start + u.n <= u.word)
    ensures var t := Step(u, Go(0));
      && t.rx.pc.Idle? && t.rx.out == s.rx.out && |t.free| == |t.slots| == s.n
      && forall i :: 0 <= i < s.n && s.at[i].Spent? ==> t.free[i] && t.slots[i]
  {
    assert u.rx.start < u.word;
    SweepComplete(u.rx.start, u.n, u.word);
    forall i | 0 <= i < s.n && s.at[i].Spent? ensures u.free[i] && u.slots[i] {
      assert Visited(i, u.rx.start, u.n, u.word);
      assert RingOk(u, i);
    }
    hide Inv;
  }

  /** In every run, when nothing is left to hand over, one receive that is left alone and whose sweep does not wrap past a shard makes every
      slot whose producer has gone claimable again. */
  lemma SlotsReturn<V>(n: nat, cap: nat, word: nat, es: seq<Event<V>>) returns (m: nat)
    requires 0 < n < word
    requires var s := Run(n, cap, word, es); Resting(s.rx.pc) && Bare(s) && (word % n == 0 || s.rx.cursor + n <= word)
    ensures var (s, t) := (Run(n, cap, word, es), Run(n, cap, word, es + [Call(TryRecv)] + Repeat(Go(0), m)));
      && t.rx.pc.Idle? && t.rx.out == s.rx.out
      && forall i :: 0 <= i < n && s.at[i].Spent? ==> t.free[i] && t.slots[i]
  {
    hide Run, Inv, Step, Sweeping;
    RunInv(n, cap, word, es);
    var s := Run(n, cap, word, es);
    BeginsSweep(s);
    var a := Step(s, Call(TryRecv));
    var b := Step(a, Go(0));
    m := SweepEnds(s, b);
    var u := Again(b, Go(0), m);
    SweepOver(s, u);
    AgainOne(u, Go(0));
    AgainSplit(b, Go(0), m, 1);
    AgainOne(a, Go(0));
    AgainSplit(a, Go(0), 1, m + 1);
    RunNext(n, cap, word, es, Call(TryRecv));
    m := m + 2;
    RunAgain(n, cap, word, es + [Call(TryRecv)], Go(0), m);
  }
}
