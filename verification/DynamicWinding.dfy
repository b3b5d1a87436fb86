/** From every reachable state the dynamic channel can be joined and used, and can be wound up: everybody leaves, and a consumer gets what it
    can and then the end. */
module DynamicWinding {
  import opened Wrappers
  import opened Tally
  import opened Dynamic
  import opened DynamicSafety
  import opened DynamicProgress
  import Scan

  /** What the producer of ring `i` does next on its way out. */
  function Onward<V>(stage: Stage, i: nat): Event<V> {
    match stage
    case Entered => Publish(i)
    case Published => GoLive(i)
    case _ => DropProducer(i)
  }

  function ToGo(stage: Stage): (n: nat) {
    match stage
    case Entered => 3
    case Published => 2
    case Live => 1
    case Dead => 0
  }

  function Road<V>(rings: seq<Ring<V>>): nat { if rings == [] then 0 else Road(rings[..|rings| - 1]) + ToGo(rings[|rings| - 1].stage) }

  lemma {:induction false} RoadUpdate<V>(rings: seq<Ring<V>>, i: nat, r: Ring<V>)
    requires i < |rings|
    ensures Road(rings[i := r]) + ToGo(rings[i].stage) == Road(rings) + ToGo(r.stage)
  {
    var (l, w) := (|rings| - 1, rings[i := r]);
    if i == l {
      assert w[..l] == rings[..l];
    } else {
      RoadUpdate(rings[..l], i, r);
      assert w[..l] == rings[..l][i := r];
    }
  }

  function Journey<V>(s: State<V>): int { Road(s.rings) + Count(s.registrars) }

  /** The consumers, and what each ring holds, stay as they are. */
  ghost predicate Aside<V>(s: State<V>, t: State<V>) {
    && t.consumers == s.consumers && |t.rings| == |s.rings|
    && forall i :: 0 <= i < |s.rings| ==> t.rings[i] == s.rings[i].(stage := t.rings[i].stage)
  }

  lemma OnwardStep<V>(s: State<V>, i: nat)
    requires i < |s.rings| && !s.rings[i].stage.Dead?
    ensures var t := Step(s, Onward(s.rings[i].stage, i));
      && |t.rings| == |s.rings| && t.rings == s.rings[i := s.rings[i].(stage := t.rings[i].stage)] && ToGo(t.rings[i].stage) < ToGo(s.rings[i].stage)
      && t.consumers == s.consumers && t.registrars == s.registrars
  {
  }

  lemma LeaveStep<V>(s: State<V>, a: nat)
    requires a < |s.registrars| && s.registrars[a] && forall i :: 0 <= i < |s.rings| ==> s.rings[i].stage.Dead?
    ensures Step(s, DropRegistrar(a)) == s.(registrars := s.registrars[a := false], live := s.live - 1)
  {
  }

  lemma OneNearer<V>(s: State<V>) returns (e: Event<V>)
    requires Counts(s) && s.live != 0
    ensures var t := Step(s, e); Aside(s, t) && 0 <= Journey(t) < Journey(s)
  {
    CountExtremes(s.registrars);
    CountExtremes(LiveFlags(s.rings));
    if i :| 0 <= i < |s.rings| && !s.rings[i].stage.Dead? {
      e := Onward(s.rings[i].stage, i);
      OnwardStep(s, i);
      RoadUpdate(s.rings, i, Step(s, e).rings[i]);
      hide Counts, Step;
    } else {
      assert forall i :: 0 <= i < |s.rings| ==> !LiveFlags(s.rings)[i];
      var a :| 0 <= a < |s.registrars| && s.registrars[a];
      e := DropRegistrar(a);
      LeaveStep(s, a);
      CountUpdate(s.registrars, a, false);
      CountExtremes(s.registrars[a := false]);
      hide Counts, Step;
    }
  }

  /** Everybody can leave, whatever the consumers are doing. */
  lemma {:induction false} WindUp<V>(runtime: Runtime, cap: nat, es: seq<Event<V>>) returns (more: seq<Event<V>>)
    ensures var (s, t) := (Run(runtime, cap, es), Run(runtime, cap, es + more)); t.live == 0 && Aside(s, t)
    decreases Journey(Run(runtime, cap, es))
  {
    hide Run, Step, Journey, Counts;
    RunInv(runtime, cap, es);
    var s := Run(runtime, cap, es);
    assert Counts(s);
    hide Inv;
    if s.live == 0 {
      more := [];
      assert es + [] == es;
    } else {
      var e := OneNearer(s);
      RunNext(runtime, cap, es, e);
      more := WindUp(runtime, cap, es + [e]);
      assert es + [e] + more == es + ([e] + more);
      more := [e] + more;
    }
  }

  // ---- until nothing is left ---------------------------------------------------------------------------

  function Rest<V>(rings: seq<Ring<V>>): int {
    if rings == [] then 0 else Rest(rings[..|rings| - 1]) + |rings[|rings| - 1].sent| - |rings[|rings| - 1].took|
  }

  lemma {:induction false} RestUpdate<V>(rings: seq<Ring<V>>, i: nat, r: Ring<V>)
    requires i < |rings|
    ensures Rest(rings[i := r]) + |rings[i].sent| - |rings[i].took| == Rest(rings) + |r.sent| - |r.took|
  {
    var (l, w) := (|rings| - 1, rings[i := r]);
    if i == l {
      assert w[..l] == rings[..l];
    } else {
      RestUpdate(rings[..l], i, r);
      assert w[..l] == rings[..l][i := r];
    }
  }

  lemma {:induction false} RestPositive<V>(rings: seq<Ring<V>>)
    requires forall i :: 0 <= i < |rings| ==> |rings[i].took| <= |rings[i].sent|
    ensures Rest(rings) >= 0
  {
    if rings != [] { RestPositive(rings[..|rings| - 1]); }
  }

  /** What consumer `c` has handed over, holds, or could still take. */
  function Total<V>(s: State<V>, c: nat): int
    requires c < |s.consumers|
  {
    |s.consumers[c].out| + |s.consumers[c].staging| + Rest(s.rings)
  }

  lemma LookTotal<V>(s: State<V>, c: nat)
    requires c < |s.consumers| && Local(s, s.consumers[c])
    requires var pc := s.consumers[c].pc; !pc.Entry? && !pc.Claim? && !pc.Drain? && !pc.Release?
    ensures var t := GoStep(s, c, 0); |t.consumers| == |s.consumers| && Total(t, c) == Total(s, c)
  {
    hide Rest, Scan.Index, Scan.Advance, EntryStep;
  }

  lemma EntryTotal<V>(s: State<V>, c: nat)
    requires c < |s.consumers| && s.consumers[c].pc.Entry?
    ensures var t := GoStep(s, c, 0); |t.consumers| == |s.consumers| && Total(t, c) == Total(s, c)
  {
    hide Rest;
  }

  lemma TakeTotal<V>(s: State<V>, c: nat)
    requires c < |s.consumers| && Local(s, s.consumers[c])
    requires var x := s.consumers[c]; (x.pc.Claim? || x.pc.Drain? || x.pc.Release?) && |s.rings[x.i].took| <= |s.rings[x.i].sent|
    ensures var t := GoStep(s, c, 0); |t.consumers| == |s.consumers| && Total(t, c) == Total(s, c)
  {
    hide Rest, Scan.Preferred, Portion;
    var i := s.consumers[c].i;
    RestUpdate(s.rings, i, GoStep(s, c, 0).rings[i]);
  }

  lemma GoTotal<V>(s: State<V>, c: nat)
    requires Inv(s) && c < |s.consumers|
    ensures var t := GoStep(s, c, 0); |t.consumers| == |s.consumers| && Total(t, c) == Total(s, c)
  {
    hide GoStep, Counts, Claims, ClaimRange, Final, LogTrue, Duty, Rest;
    var x := s.consumers[c];
    assert Local(s, x);
    if x.pc.Claim? || x.pc.Drain? || x.pc.Release? { assert RingTold(s, x.i); TakeTotal(s, c); }
    else if x.pc.Entry? { EntryTotal(s, c); } else { LookTotal(s, c); }
  }

  lemma {:induction false} AloneTotal<V>(s: State<V>, c: nat, n: nat)
    requires Inv(s) && c < |s.consumers|
    ensures Inv(Alone(s, c, n)) && Total(Alone(s, c, n), c) == Total(s, c)
  {
    hide GoStep, Inv, Total;
    if n > 0 {
      AloneTotal(s, c, n - 1);
      GoTotal(Alone(s, c, n - 1), c);
      GoKeeps(Alone(s, c, n - 1), c, 0);
    }
  }

  lemma CallTotal<V>(s: State<V>, c: nat)
    requires Inv(s) && c < |s.consumers| && Resting(s.consumers[c].pc)
    ensures var t := Step(s, Call(c, One, true));
      Inv(t) && |t.consumers| == |s.consumers| && Total(t, c) == Total(s, c) && t.live == s.live && InCall(t.consumers[c].pc)
  {
    hide Inv, Rest;
    StepKeeps(s, Call(c, One, true));
  }

  lemma OutBound<V>(s: State<V>, c: nat)
    requires Inv(s) && c < |s.consumers|
    ensures |s.consumers[c].out| <= Total(s, c)
  {
    hide Counts, Claims, ClaimRange, Local, Final, LogTrue, Duty;
    forall i | 0 <= i < |s.rings| ensures |s.rings[i].took| <= |s.rings[i].sent| { assert RingTold(s, i); }
    RestPositive(s.rings);
  }

  lemma {:induction false} AloneLive<V>(s: State<V>, c: nat, n: nat)
    requires c < |s.consumers|
    ensures Alone(s, c, n).live == s.live
  {
    hide EntryStep, LoadCountStep, SelectStep, PickStep, DrainStep, ReleaseStep;
    if n > 0 {
      AloneLive(s, c, n - 1);
      TakeLive(Alone(s, c, n - 1), c);
    }
  }

  lemma TakeLive<V>(s: State<V>, c: nat)
    requires c < |s.consumers|
    ensures GoStep(s, c, 0).live == s.live
  {
    hide EntryStep, LoadCountStep, SelectStep, PickStep, Portion, Parcels, Delivered;
  }

  /** Receiving again and again ends with the report of the end. */
  lemma {:induction false} TellsEnd<V>(runtime: Runtime, cap: nat, es: seq<Event<V>>, c: nat) returns (more: seq<Event<V>>)
    requires var s := Run(runtime, cap, es); c < |s.consumers| && Resting(s.consumers[c].pc) && s.live == 0
    ensures var t := Run(runtime, cap, es + more); |t.consumers| == |Run(runtime, cap, es).consumers| && t.consumers[c].pc.Finished? && t.live == 0
    decreases var s := Run(runtime, cap, es); Total(s, c) - |s.consumers[c].out|
  {
    hide Run, Inv, GoStep, Step, Total, Owed;
    var s := Run(runtime, cap, es);
    RunInv(runtime, cap, es);
    OutBound(s, c);
    CallTotal(s, c);
    var n := CallOutcome(runtime, cap, es, c, One);
    var t := Step(s, Call(c, One, true));
    AloneTotal(t, c, n);
    AloneLive(t, c, n);
    RunNext(runtime, cap, es, Call(c, One, true));
    RunAlone(runtime, cap, es + [Call(c, One, true)], c, n);
    more := [Call(c, One, true)] + Steps(c, n);
    assert es + more == es + [Call(c, One, true)] + Steps(c, n);
    if Owed(s, c) {
      var u := Run(runtime, cap, es + more);
      OutBound(u, c);
      var rest := TellsEnd(runtime, cap, es + more, c);
      assert es + more + rest == es + (more + rest);
      more := more + rest;
    }
  }

  /** From every reachable state the channel can be wound up for a consumer that is still in use: nobody can send any more, it reports the
      end, and what is left in a ring is for a peer; as the only consumer it has then handed over everything sent. */
  lemma CanFinish<V>(runtime: Runtime, cap: nat, es: seq<Event<V>>, c: nat) returns (more: seq<Event<V>>)
    requires var s := Run(runtime, cap, es); c < |s.consumers| && !s.consumers[c].pc.Retired? && !s.consumers[c].pc.Quit?
    ensures var (s, t) := (Run(runtime, cap, es), Run(runtime, cap, es + more));
      && |t.consumers| == |s.consumers| && t.live == 0 && t.consumers[c].pc.Finished?
      && (forall i :: 0 <= i < |t.rings| && |t.rings[i].took| < |t.rings[i].sent| ==> PeerObliged(t, c, i))
      && (|s.consumers| == 1 ==>
            && t.consumers[c].out == t.consumers[c].log
            && forall i, p :: 0 <= i < |t.rings| && 0 <= p < |t.rings[i].sent| ==> WasReceived(t, i, p))
  {
    hide Run, Step, GoStep, Left, Since;
    more := WindUp(runtime, cap, es);
    var a := Run(runtime, cap, es + more);
    if InCall(a.consumers[c].pc) {
      var n := EndsWithin(runtime, cap, es + more, c);
      RunAlone(runtime, cap, es + more, c, n);
      AloneLive(a, c, n);
      assert es + more + Steps(c, n) == es + (more + Steps(c, n));
      more := more + Steps(c, n);
    }
    var rest := TellsEnd(runtime, cap, es + more, c);
    assert es + more + rest == es + (more + rest);
    more := more + rest;
    FinishedLeaves(runtime, cap, es + more, c);
    NothingStranded(runtime, cap, es + more);
  }

  lemma FinishedLeaves<V>(runtime: Runtime, cap: nat, es: seq<Event<V>>, c: nat)
    requires var s := Run(runtime, cap, es); c < |s.consumers| && s.consumers[c].pc.Finished?
    ensures var s := Run(runtime, cap, es); forall i :: 0 <= i < |s.rings| && |s.rings[i].took| < |s.rings[i].sent| ==> PeerObliged(s, c, i)
  {
    hide Run, Counts, Claims, ClaimRange, Local, Final, LogTrue, RingTold;
    RunInv(runtime, cap, es);
    var s := Run(runtime, cap, es);
    forall i | 0 <= i < |s.rings| && |s.rings[i].took| < |s.rings[i].sent| ensures PeerObliged(s, c, i) { assert Duty(s, i); }
  }

  // ---- joining -----------------------------------------------------------------------------------------

  /** Registering and sending a first value. */
  lemma JoinTurns<V>(s: State<V>, a: nat, v: V)
    requires a < |s.registrars| && s.registrars[a] && s.cap > 0 && (s.runtime.Array? ==> s.count < s.runtime.max)
    ensures var i := |s.rings|; var t := Step(Step(Step(Step(s, Enter(a)), Publish(i)), GoLive(i)), Push(i, v));
      t == s.(rings := s.rings + [Ring(Live, a, None, [v], [])], count := s.count + 1, live := s.live + 1)
  {
    var i := |s.rings|;
    var b := Step(s, Enter(a));
    assert b.rings == s.rings + [Ring(Entered, a, None, [], [])];
    var c := Step(b, Publish(i));
    assert c.rings == s.rings + [Ring(Published, a, None, [], [])] && c.count == s.count + 1;
    var d := Step(c, GoLive(i));
    assert d.rings == s.rings + [Ring(Live, a, None, [], [])] && d.live == s.live + 1;
    assert [] + [v] == [v];
  }

  /** In every run, a live registrar can register a producer while there is room for one, and the producer can send. */
  lemma JoinAndPush<V>(runtime: Runtime, cap: nat, es: seq<Event<V>>, a: nat, v: V)
    requires var s := Run(runtime, cap, es); a < |s.registrars| && s.registrars[a] && s.cap > 0 && (s.runtime.Array? ==> s.count < s.runtime.max)
    ensures var s := Run(runtime, cap, es); var i := |s.rings|;
      Run(runtime, cap, es + [Enter(a)] + [Publish(i)] + [GoLive(i)] + [Push(i, v)])
        == s.(rings := s.rings + [Ring(Live, a, None, [v], [])], count := s.count + 1, live := s.live + 1)
  {
    hide Run, Step;
    var s := Run(runtime, cap, es);
    var i := |s.rings|;
    JoinTurns(s, a, v);
    RunNext(runtime, cap, es, Enter(a));
    RunNext(runtime, cap, es + [Enter(a)], Publish(i));
    RunNext(runtime, cap, es + [Enter(a)] + [Publish(i)], GoLive(i));
    RunNext(runtime, cap, es + [Enter(a)] + [Publish(i)] + [GoLive(i)], Push(i, v));
  }
}
