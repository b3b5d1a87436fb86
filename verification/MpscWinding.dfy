/** From every reachable state the gathering channel can be joined and used, and can be wound up: everybody leaves, the receiver gets what is
    left, and then the end. */
module MpscWinding {
  import opened Items
  import opened Tally
  import opened Mpsc
  import opened MpscSafety
  import opened MpscProgress

  /** What producer `p` does next on its way out. */
  function Onward<V>(stage: Stage, p: nat): Event<V> {
    match stage
    case Made => CountLive(p)
    case Counted => Deposit(p)
    case Deposited => Bump(p)
    case Live => DropTx(p)
    case TxGone => DropArc(p)
    case _ => ReleaseLive(p)
  }

  function ToGo(stage: Stage): (n: nat) {
    match stage
    case Made => 6
    case Counted => 5
    case Deposited => 4
    case Live => 3
    case TxGone => 2
    case ArcGone => 1
    case Released => 0
  }

  function Road<V>(ps: seq<Producer<V>>): nat { if ps == [] then 0 else Road(ps[..|ps| - 1]) + ToGo(ps[|ps| - 1].stage) }

  lemma {:induction false} RoadUpdate<V>(ps: seq<Producer<V>>, p: nat, x: Producer<V>)
    requires p < |ps|
    ensures Road(ps[p := x]) + ToGo(ps[p].stage) == Road(ps) + ToGo(x.stage)
  {
    var (l, w) := (|ps| - 1, ps[p := x]);
    if p == l {
      assert w[..l] == ps[..l];
    } else {
      RoadUpdate(ps[..l], p, x);
      assert w[..l] == ps[..l][p := x];
    }
  }

  /** Steps until nobody is left. */
  function Journey<V>(s: State<V>): int { Road(s.producers) + Count(s.registrars) }

  /** The receiver and what was sent stay as they are. */
  ghost predicate Aside<V>(s: State<V>, t: State<V>) {
    t.rx == s.rx && |t.producers| == |s.producers| && forall p :: 0 <= p < |s.producers| ==> t.producers[p].sent == s.producers[p].sent
  }

  ghost predicate Advanced<V>(s: State<V>, t: State<V>, p: nat)
    requires p < |s.producers|
  {
    && |t.producers| == |s.producers| && t.producers == s.producers[p := t.producers[p]] && ToGo(t.producers[p].stage) < ToGo(s.producers[p].stage)
    && t.producers[p].sent == s.producers[p].sent && t.rx == s.rx && t.registrars == s.registrars
  }

  lemma JoinOnward<V>(s: State<V>, p: nat)
    requires p < |s.producers| && s.producers[p].ring < |s.at| && InFlight(s.producers[p].stage)
    ensures Advanced(s, Step(s, Onward(s.producers[p].stage, p)), p)
  {
  }

  lemma LeaveOnward<V>(s: State<V>, p: nat)
    requires p < |s.producers| && s.producers[p].ring < |s.rings| && !InFlight(s.producers[p].stage) && !s.producers[p].stage.Released?
    ensures Advanced(s, Step(s, Onward(s.producers[p].stage, p)), p)
  {
  }

  lemma OnwardStep<V>(s: State<V>, p: nat)
    requires Inv(s) && p < |s.producers| && !s.producers[p].stage.Released?
    ensures Advanced(s, Step(s, Onward(s.producers[p].stage, p)), p)
  {
    hide Step;
    assert ProdOk(s, p) && |s.at| == |s.rings|;
    if InFlight(s.producers[p].stage) { JoinOnward(s, p); } else { LeaveOnward(s, p); }
  }

  lemma LeaveStep<V>(s: State<V>, a: nat)
    requires a < |s.registrars| && s.registrars[a] && forall p :: 0 <= p < |s.producers| ==> s.producers[p].stage.Released?
    ensures Step(s, DropRegistrar(a)) == s.(registrars := s.registrars[a := false], live := s.live - 1)
  {
  }

  /** One event that brings the end of all senders nearer. */
  lemma OneNearer<V>(s: State<V>) returns (e: Event<V>)
    requires Inv(s) && s.live != 0
    ensures var t := Step(s, e); Aside(s, t) && 0 <= Journey(t) < Journey(s)
  {
    CountExtremes(s.registrars);
    CountExtremes(LiveFlags(s.producers));
    if p :| 0 <= p < |s.producers| && !s.producers[p].stage.Released? {
      e := Onward(s.producers[p].stage, p);
      OnwardStep(s, p);
      RoadUpdate(s.producers, p, Step(s, e).producers[p]);
      hide Inv, Step;
    } else {
      assert forall p :: 0 <= p < |s.producers| ==> !LiveFlags(s.producers)[p];
      var a :| 0 <= a < |s.registrars| && s.registrars[a];
      e := DropRegistrar(a);
      LeaveStep(s, a);
      CountUpdate(s.registrars, a, false);
      CountExtremes(s.registrars[a := false]);
      hide Inv, Step;
    }
  }

  /** Everybody can leave, whatever the receiver is doing. */
  lemma {:induction false} WindUp<V>(lockFree: bool, cap: nat, poolCap: nat, es: seq<Event<V>>) returns (more: seq<Event<V>>)
    ensures var (s, t) := (Run(lockFree, cap, poolCap, es), Run(lockFree, cap, poolCap, es + more)); t.live == 0 && Aside(s, t)
    decreases Journey(Run(lockFree, cap, poolCap, es))
  {
    hide Run, Inv, Step, Journey;
    RunInv(lockFree, cap, poolCap, es);
    var s := Run(lockFree, cap, poolCap, es);
    if s.live == 0 {
      more := [];
      assert es + [] == es;
    } else {
      var e := OneNearer(s);
      RunNext(lockFree, cap, poolCap, es, e);
      more := WindUp(lockFree, cap, poolCap, es + [e]);
      assert es + [e] + more == es + ([e] + more);
      more := [e] + more;
    }
  }

  // ---- the call under way, and then the rest -----------------------------------------------------------

  /** Calls that do not block end of themselves. */
  lemma QuitStep<V>(s: State<V>)
    requires Inv(s) && !s.rx.kind.Recv? && !Resting(s.rx.pc)
    ensures var t := GoStep(s, 0); Inv(t) && t.live == s.live && t.producers == s.producers && !t.rx.kind.Recv? && (t.rx.pc.Idle? || Left(t) < Left(s))
  {
    GoKeeps(s, 0);
    assert RxOk(s);
    if s.rx.pc.Check? { ShardPlace(s, s.rx.pc.i); }
    assert !s.fault && !GoStep(s, 0).fault;
    hide Inv;
    QuitLeft(s);
  }

  lemma QuitLeft<V>(s: State<V>)
    requires RxOk(s) && !s.rx.kind.Recv? && !Resting(s.rx.pc) && !GoStep(s, 0).fault
    ensures var t := GoStep(s, 0); t.live == s.live && t.producers == s.producers && !t.rx.kind.Recv? && (t.rx.pc.Idle? || Left(t) < Left(s))
  {
    if s.rx.pc.Pass? { QuitPass(s); } else if s.rx.pc.Check? { QuitCheck(s); } else { QuitOther(s); }
  }

  lemma QuitPass<V>(s: State<V>)
    requires RxOk(s) && !s.rx.kind.Recv? && s.rx.pc.Pass? && !GoStep(s, 0).fault
    ensures var t := GoStep(s, 0); t.live == s.live && t.producers == s.producers && !t.rx.kind.Recv? && (t.rx.pc.Idle? || Left(t) < Left(s))
  {
  }

  lemma QuitCheck<V>(s: State<V>)
    requires RxOk(s) && !s.rx.kind.Recv? && s.rx.pc.Check? && !GoStep(s, 0).fault
    ensures var t := GoStep(s, 0); t.live == s.live && t.producers == s.producers && !t.rx.kind.Recv? && (t.rx.pc.Idle? || Left(t) < Left(s))
  {
  }

  lemma QuitOther<V>(s: State<V>)
    requires RxOk(s) && !s.rx.kind.Recv? && !Resting(s.rx.pc) && !s.rx.pc.Pass? && !s.rx.pc.Check?
    ensures var t := GoStep(s, 0); t.live == s.live && t.producers == s.producers && !t.rx.kind.Recv? && (t.rx.pc.Idle? || Left(t) < Left(s))
  {
  }

  lemma {:induction false} Quits<V>(s: State<V>) returns (n: nat)
    requires Inv(s) && !s.rx.kind.Recv?
    ensures var u := Alone(s, n); u.live == s.live && u.producers == s.producers && Resting(u.rx.pc)
    decreases Left(s)
  {
    hide Inv, GoStep, Left;
    if Resting(s.rx.pc) {
      n := 0;
    } else {
      QuitStep(s);
      var t := GoStep(s, 0);
      if t.rx.pc.Idle? {
        AloneFirst(s, 1);
        assert Alone(t, 0) == t;
        n := 1;
      } else {
        n := Quits(t);
        n := n + 1;
        AloneFirst(s, n);
      }
    }
  }

  lemma {:induction false} SameProducers<V>(s: State<V>, n: nat)
    ensures Alone(s, n).producers == s.producers
  {
    hide PassStep, CheckStep;
    if n > 0 { SameProducers(s, n - 1); PassProducers(Alone(s, n - 1)); }
  }

  lemma PassProducers<V>(s: State<V>)
    ensures forall k: nat :: PassStep(s, k, 0).producers == s.producers
    ensures forall k: nat, i: nat :: CheckStep(s, k, i).producers == s.producers
  {
  }

  /** The call under way comes to rest. */
  lemma ComesToRest<V>(lockFree: bool, cap: nat, poolCap: nat, es: seq<Event<V>>) returns (n: nat)
    requires Run(lockFree, cap, poolCap, es).live == 0
    ensures var (s, t) := (Run(lockFree, cap, poolCap, es), Run(lockFree, cap, poolCap, es + Steps(n)));
      t.live == 0 && Resting(t.rx.pc) && t.producers == s.producers
  {
    hide Run, Inv, GoStep, Left, Bare;
    RunInv(lockFree, cap, poolCap, es);
    var s := Run(lockFree, cap, poolCap, es);
    if Resting(s.rx.pc) {
      n := 0;
      assert es + Steps(0) == es;
    } else if s.rx.kind.Recv? {
      n := EndsFrom(s);
      SameProducers(s, n);
      RunAlone(lockFree, cap, poolCap, es, n);
    } else {
      n := Quits(s);
      RunAlone(lockFree, cap, poolCap, es, n);
    }
  }

  lemma {:induction false} ReceivesOnly<V>(lockFree: bool, cap: nat, poolCap: nat, es: seq<Event<V>>, more: seq<Event<V>>)
    requires Receives(more)
    ensures Run(lockFree, cap, poolCap, es + more).producers == Run(lockFree, cap, poolCap, es).producers
    decreases |more|
  {
    hide Run, PassStep, CheckStep;
    if more == [] {
      assert es + more == es;
    } else {
      var l := |more| - 1;
      ReceivesOnly(lockFree, cap, poolCap, es, more[..l]);
      RunNext(lockFree, cap, poolCap, es + more[..l], more[l]);
      assert es + more[..l] + [more[l]] == es + more;
      PassProducers(Run(lockFree, cap, poolCap, es + more[..l]));
    }
  }

  /** From every reachable state the channel can be wound up: then the receiver reports the end, and everything sent before was handed over. */
  lemma CanFinish<V>(lockFree: bool, cap: nat, poolCap: nat, es: seq<Event<V>>) returns (more: seq<Event<V>>)
    ensures var (s, t) := (Run(lockFree, cap, poolCap, es), Run(lockFree, cap, poolCap, es + more));
      && t.rx.pc.Finished? && |t.producers| == |s.producers|
      && forall p :: 0 <= p < |s.producers| ==> From(t.rx.out, p) == s.producers[p].sent
  {
    hide Run;
    var a := WindUp(lockFree, cap, poolCap, es);
    var n := ComesToRest(lockFree, cap, poolCap, es + a);
    var b := DrainsAll(lockFree, cap, poolCap, es + a + Steps(n));
    ReceivesOnly(lockFree, cap, poolCap, es + a + Steps(n), b);
    more := a + Steps(n) + b;
    assert es + more == es + a + Steps(n) + b;
  }

  // ---- joining -----------------------------------------------------------------------------------------

  /** A producer has been made for registrar `a`; the receiver and the others are as before. */
  ghost predicate MadeOne<V>(s: State<V>, t: State<V>, a: nat) {
    && |t.producers| == |s.producers| + 1 && t.producers[..|s.producers|] == s.producers
    && t.producers[|s.producers|].stage.Made? && t.producers[|s.producers|].sent == [] && t.producers[|s.producers|].registrar == a
    && t.rx == s.rx && t.registrars == s.registrars && t.live == s.live && t.cap == s.cap
  }

  lemma MakeTurn<V>(s: State<V>, a: nat)
    requires Inv(s) && a < |s.registrars| && s.registrars[a] && !Step(s, Make(a)).fault
    ensures var t := Step(s, Make(a)); MadeOne(s, t, a) || (t == s.(pool := t.pool, at := t.at) && |t.pool| < |s.pool|)
  {
    hide Inv;
  }

  lemma MadeFrom<V>(s: State<V>, u: State<V>, t: State<V>, a: nat)
    requires u == s.(pool := u.pool, at := u.at) && MadeOne(u, t, a)
    ensures MadeOne(s, t, a)
  {
  }

  /** Looking for a ring ends with one, after at most as many attempts as rings are pooled and one more. */
  lemma {:induction false} MakeEnds<V>(lockFree: bool, cap: nat, poolCap: nat, es: seq<Event<V>>, a: nat) returns (more: seq<Event<V>>)
    requires var s := Run(lockFree, cap, poolCap, es); a < |s.registrars| && s.registrars[a]
    ensures |more| <= |Run(lockFree, cap, poolCap, es).pool| + 1 && forall i :: 0 <= i < |more| ==> more[i] == Make(a)
    ensures MadeOne(Run(lockFree, cap, poolCap, es), Run(lockFree, cap, poolCap, es + more), a)
    decreases |Run(lockFree, cap, poolCap, es).pool|
  {
    hide Run, Step, MadeOne;
    var s := Run(lockFree, cap, poolCap, es);
    RunInv(lockFree, cap, poolCap, es);
    RunInv(lockFree, cap, poolCap, es + [Make(a)]);
    RunNext(lockFree, cap, poolCap, es, Make(a));
    MakeTurn(s, a);
    hide Inv;
    if MadeOne(s, Step(s, Make(a)), a) {
      more := [Make(a)];
    } else {
      more := MakeEnds(lockFree, cap, poolCap, es + [Make(a)], a);
      MadeFrom(s, Run(lockFree, cap, poolCap, es + [Make(a)]), Run(lockFree, cap, poolCap, es + [Make(a)] + more), a);
      assert es + [Make(a)] + more == es + ([Make(a)] + more);
      more := [Make(a)] + more;
    }
  }

  lemma JoinIn<V>(s: State<V>, p: nat)
    requires p < |s.producers| && s.producers[p].stage.Made? && s.producers[p].ring < |s.at|
    ensures var t := Step(Step(Step(s, CountLive(p)), Deposit(p)), Bump(p));
      && |t.producers| == |s.producers| && t.producers[p] == s.producers[p].(stage := Live)
      && t.rings == s.rings && t.live == s.live + 1 && t.rx == s.rx && t.cap == s.cap
  {
    var a := Step(s, CountLive(p));
    assert a == SetStage(s, p, Counted).(live := s.live + 1);
    var b := Step(a, Deposit(p));
    assert |b.producers| == |s.producers| && b.producers[p] == s.producers[p].(stage := Deposited);
    assert b.rings == s.rings && b.live == s.live + 1 && b.rx == s.rx && b.cap == s.cap;
  }

  lemma FirstSend<V>(s: State<V>, p: nat, v: V)
    requires p < |s.producers| && s.producers[p].stage.Live? && s.producers[p].ring < |s.rings|
    requires s.producers[p].sent == [] && s.rings[s.producers[p].ring].queue == [] && s.cap > 0
    ensures var t := Step(s, Send(p, v));
      && |t.producers| == |s.producers| && t.producers[p].stage.Live? && t.producers[p].sent == [v] && t.live == s.live && t.rx == s.rx
  {
    assert [] + [v] == [v];
  }

  /** The rest of a registration, and a first send. */
  lemma JoinTurns<V>(s: State<V>, p: nat, v: V)
    requires Inv(s) && p < |s.producers| && s.producers[p].stage.Made? && s.producers[p].sent == [] && s.cap > 0 && Rest(s, p) == []
    requires s.producers[p].ring < |s.rings| && s.rings[s.producers[p].ring].owner == p
    ensures var t := Step(Step(Step(Step(s, CountLive(p)), Deposit(p)), Bump(p)), Send(p, v));
      && |t.producers| == |s.producers| && t.producers[p].stage.Live? && t.producers[p].sent == [v] && t.live == s.live + 1 && t.rx == s.rx
  {
    hide Step;
    assert ProdOk(s, p) && |s.at| == |s.rings|;
    hide Inv, ProdOk;
    JoinIn(s, p);
    FirstSend(Step(Step(Step(s, CountLive(p)), Deposit(p)), Bump(p)), p, v);
  }

  lemma MadeOwns<V>(s: State<V>, p: nat)
    requires Inv(s) && p < |s.producers| && s.producers[p].stage.Made? && s.producers[p].sent == []
    ensures s.producers[p].ring < |s.rings| && s.rings[s.producers[p].ring].owner == p && Rest(s, p) == []
  {
    assert ProdOk(s, p) && Kept(s, p);
    hide From;
  }

  /** In every run, a live registrar can register a producer, and the producer can send: within a bounded number of steps of their own the
      receiver's channel has one more live sender with its first value accepted. */
  lemma JoinAndSend<V>(lockFree: bool, cap: nat, poolCap: nat, es: seq<Event<V>>, a: nat, v: V) returns (more: seq<Event<V>>)
    requires var s := Run(lockFree, cap, poolCap, es); a < |s.registrars| && s.registrars[a] && s.cap > 0
    ensures |more| <= |Run(lockFree, cap, poolCap, es).pool| + 5
    ensures var (s, t) := (Run(lockFree, cap, poolCap, es), Run(lockFree, cap, poolCap, es + more)); var p := |s.producers|;
      && |t.producers| == p + 1 && t.producers[p].stage.Live? && t.producers[p].sent == [v] && t.live == s.live + 1 && t.rx == s.rx
  {
    hide Run, Inv, Step;
    more := MakeEnds(lockFree, cap, poolCap, es, a);
    var p := |Run(lockFree, cap, poolCap, es).producers|;
    var fs := es + more;
    RunInv(lockFree, cap, poolCap, fs);
    MadeOwns(Run(lockFree, cap, poolCap, fs), p);
    JoinTurns(Run(lockFree, cap, poolCap, fs), p, v);
    RunNext(lockFree, cap, poolCap, fs, CountLive(p));
    RunNext(lockFree, cap, poolCap, fs + [CountLive(p)], Deposit(p));
    RunNext(lockFree, cap, poolCap, fs + [CountLive(p)] + [Deposit(p)], Bump(p));
    RunNext(lockFree, cap, poolCap, fs + [CountLive(p)] + [Deposit(p)] + [Bump(p)], Send(p, v));
    more := more + [CountLive(p), Deposit(p), Bump(p), Send(p, v)];
    assert es + more == fs + [CountLive(p)] + [Deposit(p)] + [Bump(p)] + [Send(p, v)];
  }
}
