/** Once nobody can send any more, the gathering receiver's calls end: with a value while one is left, and then with the end. */
module MpscProgress {
  import opened Items
  import opened Mpsc
  import opened MpscSafety

  function Alone<V>(s: State<V>, n: nat): State<V> { if n == 0 then s else GoStep(Alone(s, n - 1), 0) }

  lemma {:induction false} AloneFirst<V>(s: State<V>, n: nat)
    requires n > 0
    ensures Alone(s, n) == Alone(GoStep(s, 0), n - 1)
  {
    hide GoStep;
    assert Alone(s, 1) == GoStep(s, 0);
    if n > 1 { AloneFirst(s, n - 1); }
  }

  /** The steps a call may still take once nobody can send. */
  function Left<V>(s: State<V>): nat {
    var x := s.rx;
    var m := 2 * (|x.shards| + |s.inbox|);
    (if x.last || x.pc.CheckLive? then 0 else m + 10) + (if x.pre then 3 else 0) +
      match x.pc
      case Entry => m + 5
      case LoadGeneration => m + 4
      case Append(_) => m + 3
      case Pass(k) => 2 * k + 1
      case Check(k, _) => 2 * k + 2
      case CheckLive => m + 9
      case _ => 0
  }

  /** Nothing is left to hand over. */
  ghost predicate Bare<V>(s: State<V>) {
    s.rx.staging == [] && forall r :: 0 <= r < |s.rings| ==> s.rings[r].queue == []
  }

  /** One step of a blocking call: it hands over a value, or it comes nearer to its end with everything still where it was. */
  ghost predicate Nearer<V>(s: State<V>, t: State<V>) {
    && t.live == s.live
    && if t.rx.pc.Idle? then s.rx.out < t.rx.out && |t.rx.out| == |s.rx.out| + 1
       else
         && t.rx.out == s.rx.out && t.rx.staging == s.rx.staging && t.rx.kind == s.rx.kind && |t.rings| == |s.rings|
         && (forall r :: 0 <= r < |s.rings| ==> t.rings[r].queue == s.rings[r].queue)
         && (t.rx.pc.Finished? || Left(t) < Left(s))
  }

  lemma QuietNearer<V>(s: State<V>)
    requires RxOk(s) && s.live == 0 && s.rx.kind.Recv? && !Resting(s.rx.pc) && !s.rx.pc.Pass? && !s.rx.pc.Check?
    ensures Nearer(s, GoStep(s, 0))
  {
  }

  lemma CheckNearer<V>(s: State<V>)
    requires RxOk(s) && s.rx.kind.Recv? && s.rx.pc.Check? && s.rx.shards[s.rx.pc.i] < |s.rings| == |s.at|
    ensures Nearer(s, GoStep(s, 0))
  {
  }

  lemma PassNearer<V>(s: State<V>)
    requires RxOk(s) && s.rx.kind.Recv? && s.rx.pc.Pass? && !GoStep(s, 0).fault
    ensures Nearer(s, GoStep(s, 0))
  {
  }

  lemma StepNearer<V>(s: State<V>)
    requires Inv(s) && s.live == 0 && s.rx.kind.Recv? && !Resting(s.rx.pc)
    ensures Inv(GoStep(s, 0)) && Nearer(s, GoStep(s, 0))
  {
    hide GoStep, Counts, Generations, ProdOk, Kept, RingOk, Nearer;
    GoKeeps(s, 0);
    if s.rx.pc.Check? { ShardPlace(s, s.rx.pc.i); CheckNearer(s); }
    else if s.rx.pc.Pass? { PassNearer(s); }
    else { QuietNearer(s); }
  }

  /** With the end reported, no ring has anything left. */
  lemma FinishedBare<V>(s: State<V>)
    requires Inv(s) && s.rx.pc.Finished?
    ensures Bare(s)
  {
    Settled(s);
    hide Counts, Generations, Kept;
    forall r | 0 <= r < |s.rings| ensures s.rings[r].queue == [] {
      assert RingOk(s, r);
      assert ProdOk(s, s.rings[r].owner);
    }
  }

  /** A blocking receive, wherever it stands once nobody can send, ends within a bounded number of its own steps: with the next value
      if one is left anywhere, and with the end exactly if none is. */
  lemma {:induction false} EndsFrom<V>(s: State<V>) returns (n: nat)
    requires Inv(s) && s.live == 0 && s.rx.kind.Recv? && !Resting(s.rx.pc)
    ensures n <= Left(s) + 1
    ensures var u := Alone(s, n);
      && Inv(u) && u.live == 0
      && if Bare(s) then u.rx.pc.Finished? && u.rx.out == s.rx.out
         else u.rx.pc.Idle? && s.rx.out < u.rx.out && |u.rx.out| == |s.rx.out| + 1
    decreases Left(s)
  {
    hide GoStep, Inv, Left;
    var t := GoStep(s, 0);
    StepNearer(s);
    AloneFirst(s, 1);
    assert Alone(t, 0) == t;
    if t.rx.pc.Idle? {
      n := 1;
      if Bare(s) { BareHolds(s); }
    } else if t.rx.pc.Finished? {
      n := 1;
      FinishedBare(t);
    } else {
      n := EndsFrom(t);
      n := n + 1;
      AloneFirst(s, n);
    }
  }

  /** A call that has nothing to hand over does not. */
  lemma BareHolds<V>(s: State<V>)
    requires Bare(s) && s.rx.kind.Recv? && !Resting(s.rx.pc)
    ensures !GoStep(s, 0).rx.pc.Idle?
  {
  }

  // ---- until nothing is left --------------------------------------------------------------------------

  function Weight<V>(rings: seq<Ring<V>>): (w: nat) {
    if rings == [] then 0 else Weight(rings[..|rings| - 1]) + |rings[|rings| - 1].queue|
  }

  lemma {:induction false} WeightUpdate<V>(rings: seq<Ring<V>>, r: nat, x: Ring<V>)
    requires r < |rings|
    ensures Weight(rings[r := x]) + |rings[r].queue| == Weight(rings) + |x.queue|
  {
    var l := |rings| - 1;
    var w := rings[r := x];
    if r == l {
      assert w[..l] == rings[..l];
    } else {
      WeightUpdate(rings[..l], r, x);
      assert w[..l] == rings[..l][r := x];
    }
  }

  /** Handed over, staged and in the rings, together. */
  function Total<V>(s: State<V>): nat { |s.rx.out| + |s.rx.staging| + Weight(s.rings) }

  lemma PassTotal<V>(s: State<V>, k: nat)
    requires s.rx.kind.Recv?
    ensures Total(PassStep(s, k, 0)) == Total(s) && PassStep(s, k, 0).rx.kind.Recv?
  {
    hide Weight;
    var x := s.rx;
    if !(k == 0 || x.shards == []) {
      var r := x.shards[x.cursor % |x.shards|];
      if r < |s.rings| {
        var q := s.rings[r].queue;
        var g := Amount(|q|, Limit(x), 0);
        WeightUpdate(s.rings, r, s.rings[r].(queue := q[g..]));
      }
    }
  }

  lemma CheckTotal<V>(s: State<V>, k: nat, i: nat)
    requires s.rx.kind.Recv?
    ensures Total(CheckStep(s, k, i)) == Total(s) && CheckStep(s, k, i).rx.kind.Recv?
  {
    hide Weight;
  }

  lemma GoTotal<V>(s: State<V>)
    requires s.rx.kind.Recv?
    ensures Total(GoStep(s, 0)) == Total(s) && GoStep(s, 0).rx.kind.Recv?
  {
    hide Weight, PassStep, CheckStep;
    if s.rx.pc.Pass? { PassTotal(s, s.rx.pc.k); }
    if s.rx.pc.Check? { CheckTotal(s, s.rx.pc.k, s.rx.pc.i); }
  }

  lemma {:induction false} AloneTotal<V>(s: State<V>, n: nat)
    requires s.rx.kind.Recv?
    ensures Total(Alone(s, n)) == Total(s) && Alone(s, n).rx.kind.Recv?
  {
    hide GoStep, Total;
    if n > 0 {
      AloneTotal(s, n - 1);
      GoTotal(Alone(s, n - 1));
    }
  }

  function Steps<V>(n: nat): (es: seq<Event<V>>)
    ensures |es| == n
  {
    if n == 0 then [] else Steps(n - 1) + [Go(0)]
  }

  lemma RunNext<V>(lockFree: bool, cap: nat, poolCap: nat, es: seq<Event<V>>, e: Event<V>)
    ensures Run(lockFree, cap, poolCap, es + [e]) == Step(Run(lockFree, cap, poolCap, es), e)
  {
    hide Step;
    assert (es + [e])[..|es|] == es;
  }

  lemma {:induction false} RunAlone<V>(lockFree: bool, cap: nat, poolCap: nat, es: seq<Event<V>>, n: nat)
    ensures Run(lockFree, cap, poolCap, es + Steps(n)) == Alone(Run(lockFree, cap, poolCap, es), n)
  {
    hide GoStep, Run;
    if n == 0 {
      assert es + [] == es;
    } else {
      RunAlone(lockFree, cap, poolCap, es, n - 1);
      RunNext(lockFree, cap, poolCap, es + Steps(n - 1), Go(0));
      assert es + Steps(n) == es + Steps(n - 1) + [Go(0)];
    }
  }

  /** In every run, a blocking receive that is under way once nobody can send ends within a bounded number of its own steps: with the
      next value if one is staged or in a ring, and with the end otherwise. */
  lemma EndsWithin<V>(lockFree: bool, cap: nat, poolCap: nat, es: seq<Event<V>>) returns (n: nat)
    requires var s := Run(lockFree, cap, poolCap, es); s.live == 0 && s.rx.kind.Recv? && !Resting(s.rx.pc)
    ensures n <= Left(Run(lockFree, cap, poolCap, es)) + 1
    ensures var (s, u) := (Run(lockFree, cap, poolCap, es), Run(lockFree, cap, poolCap, es + Steps(n)));
      && u.live == 0
      && if Bare(s) then u.rx.pc.Finished? && u.rx.out == s.rx.out
         else u.rx.pc.Idle? && s.rx.out < u.rx.out && |u.rx.out| == |s.rx.out| + 1
  {
    hide Run, Inv, GoStep, Bare, Left;
    RunInv(lockFree, cap, poolCap, es);
    n := EndsFrom(Run(lockFree, cap, poolCap, es));
    RunAlone(lockFree, cap, poolCap, es, n);
  }

  /** One receive from rest: the number of values still to be handed over falls, or the end is reported. */
  lemma OneCall<V>(s: State<V>) returns (n: nat)
    requires Inv(s) && s.live == 0 && Resting(s.rx.pc)
    ensures var t := Step(s, Call(Recv));
      var u := Alone(t, n);
      && Inv(u) && u.live == 0 && Total(u) == Total(s)
      && (u.rx.pc.Finished? || (u.rx.pc.Idle? && |u.rx.out| == |s.rx.out| + 1))
  {
    StepKeeps(s, Call(Recv));
    var t := Step(s, Call(Recv));
    assert t == s.(rx := t.rx) && t.rx.out == s.rx.out && t.rx.staging == s.rx.staging && t.rx.kind.Recv? && t.rx.pc.Entry?;
    hide Step, Inv, GoStep, Bare, Left;
    n := EndsFrom(t);
    AloneTotal(t, n);
  }

  predicate Receives<V>(es: seq<Event<V>>) { forall i :: 0 <= i < |es| ==> es[i] == Call(Recv) || es[i] == Go(0) }

  lemma {:induction false} StepsReceive<V>(n: nat)
    ensures Receives<V>(Steps(n))
  {
    if n > 0 { StepsReceive<V>(n - 1); }
  }

  /** From every resting point after nobody can send, receiving again and again hands over everything that was sent, and then
      reports the end. */
  lemma {:induction false} DrainsAll<V>(lockFree: bool, cap: nat, poolCap: nat, es: seq<Event<V>>) returns (more: seq<Event<V>>)
    requires var s := Run(lockFree, cap, poolCap, es); s.live == 0 && Resting(s.rx.pc)
    ensures Receives(more)
    ensures var u := Run(lockFree, cap, poolCap, es + more);
      u.rx.pc.Finished? && forall p :: 0 <= p < |u.producers| ==> From(u.rx.out, p) == u.producers[p].sent
    decreases Total(Run(lockFree, cap, poolCap, es)) - |Run(lockFree, cap, poolCap, es).rx.out|
  {
    hide Run, Inv, GoStep, Step, Weight;
    var s := Run(lockFree, cap, poolCap, es);
    RunInv(lockFree, cap, poolCap, es);
    var n := OneCall(s);
    more := [Call(Recv)] + Steps(n);
    StepsReceive<V>(n);
    RunNext(lockFree, cap, poolCap, es, Call(Recv));
    RunAlone(lockFree, cap, poolCap, es + [Call(Recv)], n);
    assert es + more == es + [Call(Recv)] + Steps(n);
    if Run(lockFree, cap, poolCap, es + more).rx.pc.Finished? {
      EndMeansAll(lockFree, cap, poolCap, es + more);
    } else {
      var rest := DrainsAll(lockFree, cap, poolCap, es + more);
      assert es + more + rest == es + (more + rest);
      more := more + rest;
    }
  }
}
