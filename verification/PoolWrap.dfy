/** The pool's last sweep with a cursor that wraps inside it. For every number of slots that does not divide the cursor's
    word there is a run in which `recv` reports the end with a value left behind; so dividing it is the exact condition. */
module PoolWrap {
  import opened Arith
  import opened Items
  import opened Pool
  import opened PoolSafety

  lemma Then<V>(n: nat, cap: nat, word: nat, es: seq<Event<V>>, e: Event<V>) returns (fs: seq<Event<V>>)
    requires 0 < n < word
    ensures fs == es + [e] && Run(n, cap, word, fs) == Step(Run(n, cap, word, es), e)
  {
    hide Step;
    fs := es + [e];
    assert fs[..|fs| - 1] == es;
  }

  // ---- idle passes bring the cursor to the end of the word ------------------------------------------

  /** Nothing claimed, nothing sent; only the receiver has moved. */
  function Idling<V>(n: nat, cap: nat, word: nat, cursor: nat, start: nat, pc: Pc, kind: Kind): State<V> {
    Init(n, cap, word).(rx := Receiver(cursor, start, 64, [], [], pc, kind, 0, false))
  }

  /** A step over an unclaimed slot only moves the cursor. */
  lemma IdleVisit<V>(n: nat, cap: nat, word: nat, cursor: nat, start: nat, k: nat, kind: Kind)
    requires 0 < n < word && !kind.Many? && k > 0 && cursor + 1 < word
    ensures var s: State<V> := Idling(n, cap, word, cursor, start, Pass(k), kind);
      Step(Step(s, Go(0)), Go(0)) == Idling(n, cap, word, cursor + 1, start, Pass(k - 1), kind)
  {
    var s: State<V> := Idling(n, cap, word, cursor, start, Pass(k), kind);
    assert Step(s, Go(0)) == Idling(n, cap, word, cursor, start, Check(k - 1, cursor % n), kind);
    DivMod(cursor + 1, 0, cursor + 1, word);
  }

  lemma {:induction false} IdlePass<V>(n: nat, cap: nat, word: nat, es: seq<Event<V>>, cursor: nat, start: nat, k: nat, kind: Kind)
    returns (fs: seq<Event<V>>)
    requires 0 < n < word && !kind.Many? && cursor + k < word
    requires Run(n, cap, word, es) == Idling(n, cap, word, cursor, start, Pass(k), kind)
    ensures Run(n, cap, word, fs) == Idling(n, cap, word, cursor + k, start, Pass(0), kind)
    decreases k
  {
    hide Step, Run, Idling;
    fs := es;
    if k > 0 {
      IdleVisit<V>(n, cap, word, cursor, start, k, kind);
      var a := Then(n, cap, word, es, Go(0));
      var b := Then(n, cap, word, a, Go(0));
      fs := IdlePass(n, cap, word, b, cursor + 1, start, k - 1, kind);
    }
  }

  /** The steps around a pass: the call and its entry before, the end of the pass after. */
  lemma IdleEnds<V>(n: nat, cap: nat, word: nat, cursor: nat, start: nat, last: nat, kind: Kind)
    requires 0 < n < word && !kind.Many?
    ensures var s: State<V> := Idling(n, cap, word, cursor, start, Idle, TryRecv);
      Step(Step(s, Call(kind)), Go(0)) == Idling(n, cap, word, cursor, cursor, Pass(n), kind)
    ensures var s: State<V> := Idling(n, cap, word, last, cursor, Pass(0), kind);
      Step(s, Go(0)) == Idling(n, cap, word, last, cursor, if kind.Recv? then CheckLive else Idle, kind)
  {
    var s: State<V> := Idling(n, cap, word, cursor, start, Idle, TryRecv);
    assert Step(s, Call(kind)) == Idling(n, cap, word, cursor, start, Entry, kind);
  }

  /** A whole call that finds nothing: `try_recv` returns, `recv` goes on to look at `live`. */
  lemma IdleCall<V>(n: nat, cap: nat, word: nat, es: seq<Event<V>>, cursor: nat, start: nat, kind: Kind) returns (fs: seq<Event<V>>)
    requires 0 < n < word && !kind.Many? && cursor + n < word
    requires Run(n, cap, word, es) == Idling(n, cap, word, cursor, start, Idle, TryRecv)
    ensures Run(n, cap, word, fs) == Idling(n, cap, word, cursor + n, cursor, if kind.Recv? then CheckLive else Idle, kind)
  {
    hide Step, Run, Idling;
    IdleEnds<V>(n, cap, word, cursor, start, cursor + n, kind);
    var a := Then(n, cap, word, es, Call(kind));
    var b := Then(n, cap, word, a, Go(0));
    var c := IdlePass(n, cap, word, b, cursor, cursor, n, kind);
    fs := Then(n, cap, word, c, Go(0));
  }

  lemma {:induction false} IdleCalls<V>(n: nat, cap: nat, word: nat, m: nat) returns (es: seq<Event<V>>, start: nat)
    requires 0 < n < word && m * n < word
    ensures Run(n, cap, word, es) == Idling(n, cap, word, m * n, start, Idle, TryRecv)
  {
    if m == 0 {
      es, start := [], 0;
    } else {
      Laps(0, m, n);
      assert m * n == (m - 1) * n + n;
      var before, at := IdleCalls<V>(n, cap, word, m - 1);
      es := IdleCall(n, cap, word, before, (m - 1) * n, at, TryRecv);
      start := (m - 1) * n;
    }
  }

  // ---- every slot is claimed, one value sent, everybody leaves ----------------------------------------

  /** The first `j` slots are claimed while the receiver waits to look at `live`. */
  function Claimed<V>(n: nat, cap: nat, word: nat, cursor: nat, start: nat, j: nat): State<V> {
    Idling(n, cap, word, cursor, start, CheckLive, Recv).(
      free := seq(n, i => i >= j), slots := seq(n, i => i >= j),
      rings := seq(n, i requires 0 <= i => Ring([], false, i < j, if i < j then i else 0)),
      at := seq(n, i requires 0 <= i => if i < j then With(i) else Free),
      claimers := seq(j, _ => Claimer(0, Answered)),
      producers := seq(j, i requires 0 <= i => Producer(i, Live, [])),
      live := 1 + j)
  }

  /** Claimer `j` half way: it has taken the bit, or the sender. */
  function Claiming<V>(n: nat, cap: nat, word: nat, cursor: nat, start: nat, j: nat, took: bool): State<V>
    requires j < n
  {
    var s: State<V> := Claimed(n, cap, word, cursor, start, j);
    s.(free := s.free[j := false], slots := if took then s.slots[j := false] else s.slots,
       at := s.at[j := if took then Holding(j) else Reserved(j)],
       claimers := s.claimers + [Claimer(0, if took then Hold(j) else TakeSlot(j))])
  }

  lemma TakeBit<V>(n: nat, cap: nat, word: nat, cursor: nat, start: nat, j: nat)
    requires j < n < word
    ensures var s: State<V> := Claimed(n, cap, word, cursor, start, j);
      Step(Step(Step(s, StartClaim(0)), Claim(j, false)), Claim(j, false)) == Claiming(n, cap, word, cursor, start, j, false)
  {
    var s: State<V> := Claimed(n, cap, word, cursor, start, j);
    assert Lowest(s.free) == j;
    var a := Step(s, StartClaim(0));
    assert a == s.(claimers := s.claimers + [Claimer(0, Load)]);
    var b := Step(a, Claim(j, false));
    assert b == s.(claimers := s.claimers + [Claimer(0, Cas(s.free))]);
  }

  lemma TakeSender<V>(n: nat, cap: nat, word: nat, cursor: nat, start: nat, j: nat)
    requires j < n < word
    ensures Step<V>(Claiming(n, cap, word, cursor, start, j, false), Claim(j, false)) == Claiming(n, cap, word, cursor, start, j, true)
  {
    var t: State<V> := Claiming(n, cap, word, cursor, start, j, true);
    var a: State<V> := Step(Claiming(n, cap, word, cursor, start, j, false), Claim(j, false));
    assert a.claimers == t.claimers;
    assert a.at == t.at;
  }

  lemma GetProducer<V>(n: nat, cap: nat, word: nat, cursor: nat, start: nat, j: nat)
    requires j < n < word
    ensures Step<V>(Claiming(n, cap, word, cursor, start, j, true), Claim(j, false)) == Claimed(n, cap, word, cursor, start, j + 1)
  {
    var s: State<V> := Claiming(n, cap, word, cursor, start, j, true);
    var t: State<V> := Claimed(n, cap, word, cursor, start, j + 1);
    var a := Step(s, Claim(j, false));
    assert a.claimers == t.claimers && a.producers == t.producers;
    assert a.rings == t.rings && a.at == t.at;
    assert a.free == t.free && a.slots == t.slots;
  }

  lemma {:induction false} ClaimUpTo<V>(n: nat, cap: nat, word: nat, es: seq<Event<V>>, cursor: nat, start: nat, j: nat)
    returns (fs: seq<Event<V>>)
    requires 0 < n < word && j <= n && Run(n, cap, word, es) == Idling(n, cap, word, cursor, start, CheckLive, Recv)
    ensures Run(n, cap, word, fs) == Claimed(n, cap, word, cursor, start, j)
  {
    if j == 0 {
      fs := es;
      var s: State<V> := Idling(n, cap, word, cursor, start, CheckLive, Recv);
      var t: State<V> := Claimed(n, cap, word, cursor, start, 0);
      assert s.free == t.free && s.slots == t.slots && s.rings == t.rings && s.at == t.at;
    } else {
      hide Step, Run, Claimed, Claiming;
      var a := ClaimUpTo(n, cap, word, es, cursor, start, j - 1);
      TakeBit<V>(n, cap, word, cursor, start, j - 1);
      TakeSender<V>(n, cap, word, cursor, start, j - 1);
      GetProducer<V>(n, cap, word, cursor, start, j - 1);
      var b := Then(n, cap, word, a, StartClaim(0));
      var c := Then(n, cap, word, b, Claim(j - 1, false));
      var d := Then(n, cap, word, c, Claim(j - 1, false));
      var e := Then(n, cap, word, d, Claim(j - 1, false));
      fs := Then(n, cap, word, e, Claim(j - 1, false));
    }
  }

  /** Every slot was claimed, `v` sits in the last ring, and the first `j` producers are gone. */
  function Leaving<V>(n: nat, cap: nat, word: nat, cursor: nat, start: nat, v: V, j: nat): State<V> {
    var s: State<V> := Claimed(n, cap, word, cursor, start, n);
    s.(rings := seq(n, i requires 0 <= i => Ring(if i == n - 1 then [v] else [], i < j, true, i)),
       at := seq(n, i requires 0 <= i => if i < j then Spent else With(i)),
       producers := seq(n, i requires 0 <= i => Producer(i, if i < j then Released else Live, if i == n - 1 then [v] else [])),
       live := 1 + n - j)
  }

  lemma SendLast<V>(n: nat, cap: nat, word: nat, cursor: nat, start: nat, v: V)
    requires 0 < n < word && cap > 0
    ensures Step(Claimed(n, cap, word, cursor, start, n), Send(n - 1, v)) == Leaving(n, cap, word, cursor, start, v, 0)
  {
    var s: State<V> := Claimed(n, cap, word, cursor, start, n);
    var t := Leaving(n, cap, word, cursor, start, v, 0);
    var a := Step(s, Send(n - 1, v));
    assert s.rings[n - 1].queue + [v] == [v] && s.producers[n - 1].sent + [v] == [v];
    assert a.rings == t.rings && a.at == t.at && a.producers == t.producers;
  }

  lemma LeaveOne<V>(n: nat, cap: nat, word: nat, cursor: nat, start: nat, v: V, j: nat)
    requires j < n < word
    ensures var s := Leaving(n, cap, word, cursor, start, v, j);
      Step(Step(Step(s, DropTx(j)), DropArc(j)), ReleaseLive(j)) == Leaving(n, cap, word, cursor, start, v, j + 1)
  {
    var (s, t) := (Leaving(n, cap, word, cursor, start, v, j), Leaving(n, cap, word, cursor, start, v, j + 1));
    var x := s.producers[j];
    var a := Step(s, DropTx(j));
    assert a == s.(rings := s.rings[j := s.rings[j].(gone := true)], at := s.at[j := TxGone(j)], producers := s.producers[j := x.(stage := FlagSet)]);
    var b := Step(a, DropArc(j));
    assert b == a.(at := a.at[j := Spent], producers := a.producers[j := x.(stage := ArcGone)]);
    var c := Step(b, ReleaseLive(j));
    assert c.rings == t.rings && c.at == t.at && c.producers == t.producers;
  }

  lemma {:induction false} LeaveUpTo<V>(n: nat, cap: nat, word: nat, es: seq<Event<V>>, cursor: nat, start: nat, v: V, j: nat)
    returns (fs: seq<Event<V>>)
    requires 0 < n < word && j <= n && Run(n, cap, word, es) == Leaving(n, cap, word, cursor, start, v, 0)
    ensures Run(n, cap, word, fs) == Leaving(n, cap, word, cursor, start, v, j)
  {
    hide Step, Run, Leaving;
    fs := es;
    if j > 0 {
      var a := LeaveUpTo(n, cap, word, es, cursor, start, v, j - 1);
      LeaveOne(n, cap, word, cursor, start, v, j - 1);
      var b := Then(n, cap, word, a, DropTx(j - 1));
      var c := Then(n, cap, word, b, DropArc(j - 1));
      fs := Then(n, cap, word, c, ReleaseLive(j - 1));
    }
  }

  // ---- the last sweep -----------------------------------------------------------------------------------

  /** The last sweep is under way with `k` steps to go, and only the last ring still holds anything. */
  ghost predicate Sweeping<V>(s: State<V>, n: nat, start: nat, v: V, k: nat) {
    && Inv(s) && 0 < n == s.n && s.live == 0
    && s.rx.pc == Pass(k) && s.rx.last && s.rx.kind.Recv? && s.rx.start == start && s.rx.out == []
    && (forall i :: 0 <= i < n - 1 ==> s.rings[i].queue == [])
    && |s.producers| == n && s.producers[n - 1].sent == [v]
  }

  lemma SweepBegins<V>(n: nat, cap: nat, word: nat, cursor: nat, start: nat, v: V)
    requires 0 < n < word
    ensures var s := Step(Step(Step(Leaving(n, cap, word, cursor, start, v, n), DropHandle(0)), Go(0)), Go(0));
      && s.n == n && s.live == 0 && s.rx.pc == Pass(n) && s.rx.last && s.rx.kind.Recv? && s.rx.start == cursor && s.rx.out == []
      && (forall i :: 0 <= i < n - 1 ==> s.rings[i].queue == [])
      && |s.producers| == n && s.producers[n - 1].sent == [v]
  {
    var l := Leaving(n, cap, word, cursor, start, v, n);
    var a := Step(l, DropHandle(0));
    assert a == l.(handles := l.handles[0 := false], live := 0);
    var b := Step(a, Go(0));
    assert b == a.(rx := a.rx.(pc := Entry, last := true));
  }

  /** The sweep that starts on the last multiple of `n` never comes to slot n - 1. */
  lemma LastSlotMissed(n: nat, word: nat, t: nat)
    requires 1 < n < word && word % n != 0 && t < n
    ensures word / n * n < word && Visit(word / n * n, t, n, word) != n - 1
  {
    var start, w := word / n * n, word % n;
    if t < w {
      DivMod(start + t, 0, start + t, word);
      DivMod(start + t, word / n, t, n);
    } else {
      DivMod(start + t, 1, t - w, word);
      DivMod(t - w, 0, t - w, n);
    }
  }

  /** What a receiver step over a slot other than the last leaves alone. */
  ghost predicate Passing<V>(s: State<V>, n: nat, start: nat, v: V, k: nat, i: nat) {
    && Inv(s) && 0 < n == s.n && s.live == 0 && i < n - 1
    && Visiting(s.rx.pc) && s.rx.pc.k == k && s.rx.pc.i == i && s.rx.last && s.rx.kind.Recv? && s.rx.start == start && s.rx.out == []
    && (forall i :: 0 <= i < n - 1 ==> s.rings[i].queue == [])
    && |s.producers| == n && s.producers[n - 1].sent == [v]
  }

  lemma SweepLooks<V>(s: State<V>, n: nat, start: nat, v: V, k: nat)
    requires Sweeping(s, n, start, v, k) && k > 0 && Visit(start, n - k, n, s.word) != n - 1
    ensures k <= n && Passing(Step(s, Go(0)), n, start, v, k - 1, s.rx.cursor % n)
  {
    StepKeeps(s, Go(0));
    hide Counts, RingOk, ClaimOk, ProdOk, Kept, Known, Swept;
    var i := s.rx.cursor % n;
    assert s.rings[i].queue == [];
  }

  /** From the check of a slot, one step on to the next or three to reset it first. */
  lemma SweepPasses<V>(s: State<V>, n: nat, start: nat, v: V, k: nat, i: nat)
    requires Passing(s, n, start, v, k, i)
    ensures var t := Step(s, Go(0));
      if s.rx.pc.SetBit? then Sweeping(t, n, start, v, k)
      else if s.rx.pc.WriteSlot? then Passing(t, n, start, v, k, i) && t.rx.pc.SetBit?
      else Sweeping(t, n, start, v, k) || (Passing(t, n, start, v, k, i) && t.rx.pc.WriteSlot?)
  {
    StepKeeps(s, Go(0));
    assert RingOk(s, i);
    hide Counts, ClaimOk, ProdOk, Kept, Known, Swept;
  }

  lemma {:induction false} SweepAll<V>(n: nat, cap: nat, word: nat, es: seq<Event<V>>, v: V, k: nat) returns (fs: seq<Event<V>>)
    requires 1 < n < word && word % n != 0 && k <= n && Sweeping(Run(n, cap, word, es), n, word / n * n, v, k)
    ensures Sweeping(Run(n, cap, word, fs), n, word / n * n, v, 0)
    decreases k
  {
    hide Step, Run, Sweeping, Passing, Visiting;
    fs := es;
    if k > 0 {
      var start := word / n * n;
      LastSlotMissed(n, word, n - k);
      var s := Run(n, cap, word, es);
      SweepLooks(s, n, start, v, k);
      var i := s.rx.cursor % n;
      var a := Then(n, cap, word, es, Go(0));
      var b := SweepOn(n, cap, word, a, start, v, k - 1, i);
      fs := SweepAll(n, cap, word, b, v, k - 1);
    }
  }

  lemma SweepOn<V>(n: nat, cap: nat, word: nat, es: seq<Event<V>>, start: nat, v: V, k: nat, i: nat) returns (fs: seq<Event<V>>)
    requires 0 < n < word && Passing(Run(n, cap, word, es), n, start, v, k, i)
    ensures Sweeping(Run(n, cap, word, fs), n, start, v, k)
  {
    hide Step, Run, Sweeping, Passing;
    fs := Then(n, cap, word, es, Go(0));
    SweepPasses(Run(n, cap, word, es), n, start, v, k, i);
    if !Sweeping(Run(n, cap, word, fs), n, start, v, k) {
      SweepPasses(Run(n, cap, word, fs), n, start, v, k, i);
      fs := Then(n, cap, word, fs, Go(0));
      if !Sweeping(Run(n, cap, word, fs), n, start, v, k) {
        SweepPasses(Run(n, cap, word, fs), n, start, v, k, i);
        fs := Then(n, cap, word, fs, Go(0));
      }
    }
  }

  // ---- theorems --------------------------------------------------------------------------------------------

  /** Everything every producer sent was handed to the receiver's caller. */
  ghost predicate AllHanded<V>(s: State<V>) {
    forall p :: 0 <= p < |s.producers| ==> From(s.rx.out, p) == s.producers[p].sent
  }

  /** For every pool whose size does not divide the cursor's word, `recv` can return None although a value was never handed over. */
  lemma WrappedSweepStrands<V>(n: nat, cap: nat, word: nat, v: V) returns (es: seq<Event<V>>)
    requires 1 < n < word && cap > 0 && word % n != 0
    ensures var s := Run(n, cap, word, es);
      s.rx.pc.Finished? && |s.producers| == n && From(s.rx.out, n - 1) == [] && s.producers[n - 1].sent == [v]
  {
    var m := word / n - 1;
    var start := word / n * n;
    assert m * n + n == start < word;
    var a, at := IdleCalls<V>(n, cap, word, m);
    var b := IdleCall(n, cap, word, a, m * n, at, Recv);
    var c := ClaimUpTo(n, cap, word, b, start, m * n, n);
    var d := Then(n, cap, word, c, Send(n - 1, v));
    SendLast(n, cap, word, start, m * n, v);
    var e := LeaveUpTo(n, cap, word, d, start, m * n, v, n);
    es := SweepFrom(n, cap, word, e, start, m * n, v);
  }

  lemma SweepFrom<V>(n: nat, cap: nat, word: nat, es: seq<Event<V>>, start: nat, before: nat, v: V) returns (fs: seq<Event<V>>)
    requires 1 < n < word && word % n != 0 && start == word / n * n
    requires Run(n, cap, word, es) == Leaving(n, cap, word, start, before, v, n)
    ensures var s := Run(n, cap, word, fs);
      s.rx.pc.Finished? && |s.producers| == n && From(s.rx.out, n - 1) == [] && s.producers[n - 1].sent == [v]
  {
    hide Step, Run, Leaving, Inv;
    var a := Then(n, cap, word, es, DropHandle(0));
    var b := Then(n, cap, word, a, Go(0));
    var c := Then(n, cap, word, b, Go(0));
    SweepBegins(n, cap, word, start, before, v);
    RunInv(n, cap, word, c);
    var d := SweepAll(n, cap, word, c, v, n);
    fs := Then(n, cap, word, d, Go(0));
    SweepEnds(Run(n, cap, word, d), n, start, v);
  }

  lemma SweepEnds<V>(s: State<V>, n: nat, start: nat, v: V)
    requires Sweeping(s, n, start, v, 0)
    ensures var t := Step(s, Go(0)); t.rx.pc.Finished? && t.rx.out == [] && t.producers == s.producers
  {
    assert WellFormed(s);
    hide Inv;
  }

  /** The size of the pool that `open` accepts and a 64-bit cursor that fails: three producers. */
  lemma ThreeProducersStrand<V>(cap: nat, v: V) returns (es: seq<Event<V>>)
    requires cap > 0
    ensures var s := Run(3, cap, 0x1_0000_0000_0000_0000, es);
      s.rx.pc.Finished? && |s.producers| == 3 && From(s.rx.out, 2) == [] && s.producers[2].sent == [v]
  {
    es := WrappedSweepStrands(3, cap, 0x1_0000_0000_0000_0000, v);
  }

  /** `recv` never reports the end early, in any run. */
  ghost predicate Complete<V(!new)>(n: nat, cap: nat, word: nat)
    requires 0 < n < word
  {
    forall es: seq<Event<V>> :: Run(n, cap, word, es).rx.pc.Finished? ==> AllHanded(Run(n, cap, word, es))
  }

  /** The exact condition: the end is never reported early if and only if the number of slots divides the cursor's word,
      which for a 64-bit cursor means a power of two. */
  lemma CompleteExactly<V(!new)>(n: nat, cap: nat, word: nat, v: V)
    requires 0 < n < word && cap > 0
    ensures Complete<V>(n, cap, word) <==> word % n == 0
  {
    if word % n == 0 {
      forall es: seq<Event<V>> | Run(n, cap, word, es).rx.pc.Finished? ensures AllHanded(Run(n, cap, word, es)) {
        EndMeansAll(n, cap, word, es);
      }
    } else {
      var es := WrappedSweepStrands(n, cap, word, v);
      assert !AllHanded(Run(n, cap, word, es));
    }
  }
}
