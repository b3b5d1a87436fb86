/** Every run of the dynamic competing-consumer channel: exactly-once hand-out, and a shutdown that strands nothing. */
module DynamicSafety {
  import opened Wrappers
  import opened Tally
  import opened Dynamic
  import Scan

  // ---- invariant --------------------------------------------------------------------

  function LiveFlags<V>(rings: seq<Ring<V>>): seq<bool> { seq(|rings|, i requires 0 <= i < |rings| => rings[i].stage.Live?) }
  function ShownFlags<V>(rings: seq<Ring<V>>): seq<bool> { seq(|rings|, i requires 0 <= i < |rings| => !rings[i].stage.Entered?) }

  /** `live` counts registrars and producers; a registration in flight borrows a live registrar. */
  ghost predicate Counts<V>(s: State<V>) {
    && s.live == Count(s.registrars) + Count(LiveFlags(s.rings))
    && s.count == (if s.runtime.Array? then |s.rings| else Count(ShownFlags(s.rings)))
    && forall i :: 0 <= i < |s.rings| && InFlight(s.rings[i].stage) ==>
         s.rings[i].owner < |s.registrars| && s.registrars[s.rings[i].owner]
  }

  predicate Holds<V>(x: Consumer<V>, i: nat) { (x.pc.Drain? || x.pc.Release?) && x.i == i }

  /** A set claim has exactly one holder. */
  ghost predicate Claims<V>(s: State<V>) {
    forall i, c :: 0 <= i < |s.rings| && 0 <= c < |s.consumers| ==>
      (s.rings[i].claim == Some(c) <==> Holds(s.consumers[c], i))
  }

  ghost predicate ClaimRange<V>(s: State<V>) {
    forall i :: 0 <= i < |s.rings| && s.rings[i].claim.Some? ==> s.rings[i].claim.value < |s.consumers|
  }

  predicate Entitled<V>(s: State<V>, c: nat, x: Parcel<V>) {
    x.ring < |s.rings| && x.pos < |s.rings[x.ring].took| <= |s.rings[x.ring].sent| && s.rings[x.ring].took[x.pos] == c
  }

  /** Consumer c's log holds only values the rings recorded as c's, as sent, in the order sent per ring. */
  ghost predicate LogTrue<V>(s: State<V>, c: nat)
    requires c < |s.consumers|
  {
    var log := s.consumers[c].log;
    && (forall m :: 0 <= m < |log| ==> Entitled(s, c, log[m]) && log[m].value == s.rings[log[m].ring].sent[log[m].pos])
    && (forall m, m' :: 0 <= m < m' < |log| && log[m].ring == log[m'].ring ==> log[m].pos < log[m'].pos)
  }

  /** Every drained value is in the log of the consumer on record. */
  ghost predicate RingTold<V>(s: State<V>, i: nat)
    requires i < |s.rings|
  {
    var r := s.rings[i];
    && |r.took| <= |r.sent|
    && forall p :: 0 <= p < |r.took| ==> r.took[p] < |s.consumers| && Parcel(i, p, r.sent[p]) in s.consumers[r.took[p]].log
  }

  predicate Scanning(pc: Pc) { pc.Select? || pc.Refresh? || pc.Pick? || pc.Claim? || pc.Drain? || pc.Release? }

  ghost predicate Local<V>(s: State<V>, x: Consumer<V>) {
    && Scan.Valid(x.scan) && x.batch > 0 && x.snap <= |s.rings| && x.log == x.out + x.staging
    && (x.pc.Pick? ==> 0 < x.len <= |s.rings|)
    && (x.pc.Refresh? ==> 0 < |s.rings|)
    && (x.pc.Claim? || x.pc.Drain? || x.pc.Release? ==> x.i < |s.rings| && x.scan.next > 0)
    && (x.pc.LoadCount? || Scanning(x.pc) ==>
          (if x.kind.InPlace? then x.done < x.kind.max && x.staging == []
           else |x.staging| == if x.pc.Release? then x.got else 0))
    && (x.pc.CheckLive? || x.pc.Finished? || x.pc.Retired? ==> x.staging == [])
    && (x.pc.Idle? || x.pc.CheckLive? || x.pc.Finished? || x.pc.Retired? || x.pc.Quit? ==> !x.final)
    && (s.live != 0 ==> !x.final && !x.pc.Finished? && !x.pc.Retired?)
  }

  /** A scan made after `live` was seen at zero walks every ring once. */
  ghost predicate Final<V>(s: State<V>, x: Consumer<V>) {
    x.final && Scanning(x.pc) ==>
      && x.n == |s.rings| && x.k <= x.n && (x.n > 0 ==> x.first < x.n)
      && (x.k < x.n ==> Scan.Index(x.scan.next, x.n) == Scan.Spot(x.first, x.k, x.n))
      && (x.pc.Refresh? || x.pc.Pick? ==> x.k < x.n)
      && (x.pc.Pick? ==> x.len == x.n)
      && (x.pc.Claim? || x.pc.Drain? || x.pc.Release? ==> x.k > 0 && x.i == Scan.Spot(x.first, x.k - 1, x.n))
      && (x.pc.Release? && x.got == 0 && x.i < |s.rings| ==> |s.rings[x.i].took| == |s.rings[x.i].sent|)
  }

  /** Consumer x will look at ring i again before it can report the end, or was dropped without reaching it. */
  predicate Obliged<V>(x: Consumer<V>, i: nat) {
    && !x.pc.Finished? && !x.pc.Retired?
    && (x.final && Scanning(x.pc) ==>
          x.done > 0 || x.k <= Scan.Place(x.first, i, x.n) || ((x.pc.Claim? || x.pc.Drain?) && x.i == i) || (x.pc.Release? && x.got > 0))
  }

  ghost predicate Duty<V>(s: State<V>, i: nat)
    requires i < |s.rings|
  {
    |s.rings[i].took| < |s.rings[i].sent| ==> exists c :: 0 <= c < |s.consumers| && Obliged(s.consumers[c], i)
  }

  ghost predicate Inv<V>(s: State<V>) {
    && !s.fault && |s.consumers| > 0
    && Counts(s) && Claims(s) && ClaimRange(s)
    && (forall c :: 0 <= c < |s.consumers| ==> Local(s, s.consumers[c]) && Final(s, s.consumers[c]) && LogTrue(s, c))
    && (forall i :: 0 <= i < |s.rings| ==> RingTold(s, i) && Duty(s, i))
  }

  // ---- what `live` says ---------------------------------------------------------------

  /** Once `live` is zero, membership is settled: every ring is shown and no producer or registrar remains. */
  lemma Settled<V>(s: State<V>)
    requires Counts(s) && s.live == 0
    ensures s.count == |s.rings| && forall i :: 0 <= i < |s.rings| ==> s.rings[i].stage.Dead?
    ensures forall a :: 0 <= a < |s.registrars| ==> !s.registrars[a]
  {
    CountExtremes(s.registrars);
    CountExtremes(LiveFlags(s.rings));
    CountExtremes(ShownFlags(s.rings));
    forall i | 0 <= i < |s.rings| ensures s.rings[i].stage.Dead? { assert !LiveFlags(s.rings)[i]; }
  }

  /** `count` never exceeds what a snapshot or an index may reach. */
  lemma CountBound<V>(s: State<V>)
    requires Counts(s)
    ensures s.count <= |s.rings|
  {
    CountExtremes(ShownFlags(s.rings));
  }

  // ---- consumer steps that touch no ring ------------------------------------------------

  lemma QuietKeeps<V>(s: State<V>, c: nat, y: Consumer<V>)
    requires Inv(s) && c < |s.consumers| && y.log == s.consumers[c].log && Local(s, y) && Final(s, y)
    requires forall i :: 0 <= i < |s.rings| ==> Holds(y, i) == Holds(s.consumers[c], i)
    requires forall i :: 0 <= i < |s.rings| && |s.rings[i].took| < |s.rings[i].sent| && Obliged(s.consumers[c], i) ==>
      Obliged(y, i) || exists d :: 0 <= d < |s.consumers| && d != c && Obliged(s.consumers[d], i)
    ensures Inv(SetCon(s, c, y))
  {
    hide Count, LiveFlags, ShownFlags, Holds, Obliged;
    var t := SetCon(s, c, y);
    assert Counts(t);
    assert Claims(t) && ClaimRange(t);
    hide Counts, Claims, ClaimRange;
    forall d | 0 <= d < |t.consumers| ensures Local(t, t.consumers[d]) && Final(t, t.consumers[d]) && LogTrue(t, d) {
      assert Local(s, s.consumers[d]) && Final(s, s.consumers[d]) && LogTrue(s, d);
      assert t.consumers[d].log == s.consumers[d].log;
    }
    forall i | 0 <= i < |t.rings| ensures RingTold(t, i) && Duty(t, i) {
      assert RingTold(s, i) && Duty(s, i);
      if |s.rings[i].took| < |s.rings[i].sent| {
        var d :| 0 <= d < |s.consumers| && Obliged(s.consumers[d], i);
        if d == c {
          if Obliged(y, i) {
            assert Obliged(t.consumers[c], i);
          } else {
            var e :| 0 <= e < |s.consumers| && e != c && Obliged(s.consumers[e], i);
            assert t.consumers[e] == s.consumers[e];
          }
        } else {
          assert t.consumers[d] == s.consumers[d];
        }
      }
    }
  }

  /** Handing over a prefix of the staged values loses nothing. */
  lemma Handed<V>(out: seq<Parcel<V>>, staging: seq<Parcel<V>>, m: nat)
    requires m <= |staging|
    ensures out + staging == (out + staging[..m]) + staging[m..]
  {
    assert staging == staging[..m] + staging[m..];
  }

  lemma EntryLocal<V>(x: Consumer<V>)
    requires x.pc.Entry? && x.log == x.out + x.staging
    ensures var y := EntryStep(x); y.log == x.log == y.out + y.staging && (y.pc.Idle? || y.pc.LoadCount?)
    ensures var y := EntryStep(x); y.pc.LoadCount? ==>
      if x.kind.InPlace? then y.done < y.kind.max && y.staging == [] else y.staging == []
  {
    var m := if x.kind.One? then 1 else if x.kind.Batch? then |x.staging| else if x.kind.max < |x.staging| then x.kind.max else |x.staging|;
    if m <= |x.staging| {
      Handed(x.out, x.staging, m);
      if x.kind.One? { assert x.staging[..1] == [x.staging[0]]; }
      if x.kind.Batch? { assert x.staging[..m] == x.staging && x.staging[m..] == []; }
    }
  }

  lemma EntryKeeps<V>(s: State<V>, c: nat)
    requires Inv(s) && c < |s.consumers| && s.consumers[c].pc.Entry?
    ensures Inv(SetCon(s, c, EntryStep(s.consumers[c])))
  {
    hide Counts, Claims, ClaimRange, LogTrue;
    var x := s.consumers[c];
    var y := EntryStep(x);
    assert Local(s, x);
    EntryLocal(x);
    assert y.scan == x.scan && y.batch == x.batch && y.snap == x.snap && y.kind == x.kind && (y.pc.Idle? ==> !y.final) && (y.final ==> x.final);
    hide EntryStep;
    assert Local(s, y) && Final(s, y);
    QuietKeeps(s, c, y);
  }

  lemma LoadCountKeeps<V>(s: State<V>, c: nat)
    requires Inv(s) && c < |s.consumers| && s.consumers[c].pc.LoadCount?
    ensures Inv(SetCon(s, c, LoadCountStep(s, s.consumers[c])))
  {
    var x := s.consumers[c];
    var y := LoadCountStep(s, x);
    assert Local(s, x);
    if x.final { Settled(s); }
    QuietKeeps(s, c, y);
  }

  lemma SelectKeeps<V>(s: State<V>, c: nat)
    requires Inv(s) && c < |s.consumers| && s.consumers[c].pc.Select?
    ensures Inv(SetCon(s, c, SelectStep(s, s.consumers[c])))
  {
    hide Count, LiveFlags, ShownFlags, Claims, ClaimRange;
    var x := s.consumers[c];
    var y := SelectStep(s, x);
    assert Local(s, x) && Final(s, x);
    CountBound(s);
    if x.final { Settled(s); }
    QuietKeeps(s, c, y);
  }

  lemma RefreshKeeps<V>(s: State<V>, c: nat)
    requires Inv(s) && c < |s.consumers| && s.consumers[c].pc.Refresh?
    ensures Inv(SetCon(s, c, s.consumers[c].(snap := |s.rings|, len := |s.rings|, pc := Pick)))
  {
    var x := s.consumers[c];
    assert Local(s, x) && Final(s, x);
    QuietKeeps(s, c, x.(snap := |s.rings|, len := |s.rings|, pc := Pick));
  }

  lemma PickKeeps<V>(s: State<V>, c: nat)
    requires Inv(s) && c < |s.consumers| && s.consumers[c].pc.Pick?
    ensures Inv(SetCon(s, c, PickStep(s, s.consumers[c])))
  {
    var x := s.consumers[c];
    var y := PickStep(s, x);
    assert Local(s, x) && Final(s, x);
    if x.final { Settled(s); }
    hide Count, LiveFlags, ShownFlags, Claims, ClaimRange, Counts;
    QuietKeeps(s, c, y);
  }

  /** A ring skipped because a peer holds it is the peer's duty. */
  lemma BusyKeeps<V>(s: State<V>, c: nat)
    requires Inv(s) && c < |s.consumers|
    requires s.consumers[c].pc.Claim? && s.consumers[c].i < |s.rings| && s.rings[s.consumers[c].i].claim.Some?
    ensures Inv(SetCon(s, c, s.consumers[c].(pc := Select)))
  {
    var x := s.consumers[c];
    var y := x.(pc := Select);
    var d := s.rings[x.i].claim.value;
    assert Local(s, x) && Final(s, x);
    assert d < |s.consumers|;
    assert Holds(s.consumers[d], x.i);
    assert Local(s, s.consumers[d]) && Final(s, s.consumers[d]);
    assert |s.rings[x.i].took| < |s.rings[x.i].sent| ==> Obliged(s.consumers[d], x.i) by { assert RingTold(s, x.i); }
    hide Counts, Claims, ClaimRange;
    QuietKeeps(s, c, y);
  }

  lemma CheckLiveKeeps<V>(s: State<V>, c: nat)
    requires Inv(s) && c < |s.consumers| && s.consumers[c].pc.CheckLive?
    ensures Inv(SetCon(s, c, s.consumers[c].(pc := Entry, final := s.live == 0)))
  {
    var x := s.consumers[c];
    assert Local(s, x);
    QuietKeeps(s, c, x.(pc := Entry, final := s.live == 0));
  }

  lemma CountsFrame<V>(s: State<V>, t: State<V>)
    requires Counts(s) && t == s.(rings := t.rings, consumers := t.consumers) && |t.rings| == |s.rings|
    requires forall i :: 0 <= i < |s.rings| ==> t.rings[i].stage == s.rings[i].stage && t.rings[i].owner == s.rings[i].owner
    ensures Counts(t)
  {
    hide Count;
    assert LiveFlags(t.rings) == LiveFlags(s.rings) && ShownFlags(t.rings) == ShownFlags(s.rings);
  }

  // ---- claiming and releasing ---------------------------------------------------------

  lemma ClaimChangeKeeps<V>(s: State<V>, c: nat, y: Consumer<V>, i: nat, claim: Option<nat>)
    requires Inv(s) && c < |s.consumers| && i < |s.rings| && y.log == s.consumers[c].log && Local(s, y) && Final(s, y)
    requires s.rings[i].claim == None || s.rings[i].claim == Some(c)
    requires claim == None || claim == Some(c)
    requires claim == Some(c) <==> Holds(y, i)
    requires forall j :: 0 <= j < |s.rings| && j != i ==> Holds(y, j) == Holds(s.consumers[c], j)
    requires forall j :: 0 <= j < |s.rings| && |s.rings[j].took| < |s.rings[j].sent| && Obliged(s.consumers[c], j) ==> Obliged(y, j)
    ensures Inv(SetRing(SetCon(s, c, y), i, s.rings[i].(claim := claim)))
  {
    hide Count, Obliged, LiveFlags, ShownFlags, RingTold, LogTrue, Local, Final, Duty, Counts;
    var t := SetRing(SetCon(s, c, y), i, s.rings[i].(claim := claim));
    CountsFrame(s, t);
    forall j, d | 0 <= j < |t.rings| && 0 <= d < |t.consumers|
      ensures t.rings[j].claim == Some(d) <==> Holds(t.consumers[d], j)
    {
      assert s.rings[j].claim == Some(d) <==> Holds(s.consumers[d], j);
    }
    assert Claims(t) && ClaimRange(t);
    hide Claims, ClaimRange, Holds;
    ClaimChangeRest(s, c, y, i, claim);
  }

  lemma ClaimChangeRest<V>(s: State<V>, c: nat, y: Consumer<V>, i: nat, claim: Option<nat>)
    requires Inv(s) && c < |s.consumers| && i < |s.rings| && y.log == s.consumers[c].log && Local(s, y) && Final(s, y)
    requires forall j :: 0 <= j < |s.rings| && |s.rings[j].took| < |s.rings[j].sent| && Obliged(s.consumers[c], j) ==> Obliged(y, j)
    ensures var t := SetRing(SetCon(s, c, y), i, s.rings[i].(claim := claim));
      && (forall c :: 0 <= c < |t.consumers| ==> Local(t, t.consumers[c]) && Final(t, t.consumers[c]) && LogTrue(t, c))
      && (forall i :: 0 <= i < |t.rings| ==> RingTold(t, i) && Duty(t, i))
  {
    hide Count, Obliged, LiveFlags, ShownFlags, Counts, Claims, ClaimRange, Holds;
    var t := SetRing(SetCon(s, c, y), i, s.rings[i].(claim := claim));
    forall j | 0 <= j < |s.rings| ensures s.rings[j].took == t.rings[j].took && |t.rings[j].took| <= |t.rings[j].sent| {
      assert RingTold(s, j);
    }
    forall d | 0 <= d < |t.consumers| ensures Local(t, t.consumers[d]) && Final(t, t.consumers[d]) && LogTrue(t, d) {
      assert Local(s, s.consumers[d]) && Final(s, s.consumers[d]) && LogTrue(s, d);
      LogFrame(s, t, d);
    }
    forall j | 0 <= j < |t.rings| ensures RingTold(t, j) && Duty(t, j) {
      assert RingTold(s, j) && Duty(s, j);
      if |s.rings[j].took| < |s.rings[j].sent| {
        var d :| 0 <= d < |s.consumers| && Obliged(s.consumers[d], j);
        assert Obliged(t.consumers[d], j);
      }
    }
  }

  lemma LogFrame<V>(s: State<V>, t: State<V>, d: nat)
    requires d < |s.consumers| && d < |t.consumers| && t.consumers[d].log == s.consumers[d].log && LogTrue(s, d)
    requires |s.rings| <= |t.rings|
    requires forall j :: 0 <= j < |s.rings| ==>
      s.rings[j].took <= t.rings[j].took && s.rings[j].sent <= t.rings[j].sent && |t.rings[j].took| <= |t.rings[j].sent|
    ensures LogTrue(t, d)
  {
    var log := s.consumers[d].log;
    forall m | 0 <= m < |log| ensures Entitled(t, d, log[m]) && log[m].value == t.rings[log[m].ring].sent[log[m].pos] {
      assert Entitled(s, d, log[m]);
    }
  }

  lemma ClaimKeeps<V>(s: State<V>, c: nat)
    requires Inv(s) && c < |s.consumers| && s.consumers[c].pc.Claim?
    requires s.consumers[c].i < |s.rings| && s.rings[s.consumers[c].i].claim.None?
    ensures Inv(GoStep(s, c, 0))
  {
    var x := s.consumers[c];
    assert Local(s, x) && Final(s, x);
    ClaimChangeKeeps(s, c, x.(pc := Drain), x.i, Some(c));
  }

  lemma DeliveredLocal<V>(x: Consumer<V>)
    requires x.log == x.out + x.staging
    ensures var y := Delivered(x); y.log == x.log == y.out + y.staging && y == x.(out := y.out, staging := y.staging)
  {
    if x.staging != [] {
      Handed(x.out, x.staging, 1);
      assert x.staging[..1] == [x.staging[0]];
    }
  }

  lemma HandOverKeeps<V>(s: State<V>, c: nat)
    requires Inv(s) && c < |s.consumers| && s.consumers[c].pc.Release? && s.consumers[c].i < |s.rings| && s.consumers[c].got > 0
    ensures Inv(ReleaseStep(s, c))
  {
    var x := s.consumers[c];
    assert Local(s, x);
    assert s.rings[x.i].claim == Some(c) by { assert Holds(x, x.i); }
    hide Delivered, Counts, Claims, ClaimRange, LogTrue, RingTold, Duty;
    var z := x.(scan := Scan.Preferred(x.scan));
    DeliveredLocal(z);
    ClaimChangeKeeps(s, c, Return(Delivered(z)), x.i, None);
  }

  lemma ReleaseKeeps<V>(s: State<V>, c: nat)
    requires Inv(s) && c < |s.consumers| && s.consumers[c].pc.Release? && s.consumers[c].i < |s.rings|
    ensures Inv(ReleaseStep(s, c))
  {
    var x := s.consumers[c];
    if x.got > 0 {
      HandOverKeeps(s, c);
    } else {
      assert Local(s, x) && Final(s, x);
      assert s.rings[x.i].claim == Some(c) by { assert Holds(x, x.i); }
      hide Counts, Claims, ClaimRange, LogTrue, RingTold, Duty;
      ClaimChangeKeeps(s, c, x.(pc := Select), x.i, None);
    }
  }

  lemma UnwindKeeps<V>(s: State<V>, c: nat)
    requires Inv(s) && c < |s.consumers|
    ensures Inv(UnwindStep(s, c))
  {
    var x := s.consumers[c];
    if x.pc.Release? && x.kind.InPlace? && x.got > 0 && x.i < |s.rings| {
      assert Local(s, x) && Final(s, x);
      assert s.rings[x.i].claim == Some(c) by { assert Holds(x, x.i); }
      hide Counts, Claims, ClaimRange, LogTrue;
      ClaimChangeKeeps(s, c, Return(x), x.i, None);
    }
  }

  // ---- draining under a claim ---------------------------------------------------------

  /** The state after consumer c moved `g` items out of ring i, as far as the records go. */
  ghost predicate Moved<V>(s: State<V>, t: State<V>, c: nat, i: nat, g: nat) {
    && c < |s.consumers| == |t.consumers| && i < |s.rings| == |t.rings| && |s.rings[i].took| + g <= |s.rings[i].sent|
    && t.consumers[c].log == s.consumers[c].log + Parcels(s.rings[i], i, g)
    && (forall d :: 0 <= d < |s.consumers| && d != c ==> t.consumers[d].log == s.consumers[d].log)
    && t.rings[i].took == s.rings[i].took + seq(g, _ => c) && t.rings[i].sent == s.rings[i].sent
    && (forall k :: 0 <= k < |s.rings| && k != i ==> t.rings[k] == s.rings[k])
  }

  lemma MovedLog<V>(s: State<V>, t: State<V>, c: nat, i: nat, g: nat)
    requires Moved(s, t, c, i, g) && LogTrue(s, c)
    ensures LogTrue(t, c)
  {
    var was, log := s.consumers[c].log, t.consumers[c].log;
    forall m | 0 <= m < |log| ensures Entitled(t, c, log[m]) && log[m].value == t.rings[log[m].ring].sent[log[m].pos] {
      if m < |was| { assert log[m] == was[m]; assert Entitled(s, c, was[m]); }
    }
    forall m, m' | 0 <= m < m' < |log| && log[m].ring == log[m'].ring ensures log[m].pos < log[m'].pos {
      if m < |was| { assert log[m] == was[m]; assert Entitled(s, c, was[m]); }
    }
  }

  lemma MovedTold<V>(s: State<V>, t: State<V>, c: nat, i: nat, g: nat, k: nat)
    requires Moved(s, t, c, i, g) && k < |s.rings| && RingTold(s, k)
    ensures RingTold(t, k)
  {
    var r := s.rings[k];
    forall p | 0 <= p < |t.rings[k].took|
      ensures t.rings[k].took[p] < |t.consumers| && Parcel(k, p, r.sent[p]) in t.consumers[t.rings[k].took[p]].log
    {
      if p < |r.took| {
        assert Parcel(k, p, r.sent[p]) in s.consumers[r.took[p]].log;
      } else {
        var moved := Parcels(r, i, g);
        assert moved[p - |r.took|] == Parcel(i, p, r.sent[p]);
        assert t.consumers[c].log[|s.consumers[c].log| + p - |r.took|] == moved[p - |r.took|];
      }
    }
  }

  lemma DrainLocal<V>(s: State<V>, c: nat, j: nat)
    requires Inv(s) && c < |s.consumers| && s.consumers[c].pc.Drain? && s.consumers[c].i < |s.rings|
    requires |s.rings[s.consumers[c].i].took| <= |s.rings[s.consumers[c].i].sent|
    ensures var t := DrainStep(s, c, j); Local(t, t.consumers[c]) && Final(t, t.consumers[c])
  {
    hide Counts, Claims, ClaimRange, LogTrue, RingTold, Duty;
    var t := DrainStep(s, c, j);
    var x := s.consumers[c];
    var r := s.rings[x.i];
    var moved := Parcels(r, x.i, Portion(r, x, j));
    assert Local(s, x) && Final(s, x);
    var z := t.consumers[c];
    assert z.log == (x.out + x.staging) + moved;
    assert z.log == z.out + z.staging;
  }

  /** What a drain changes, and that it moves something out of a ring that has anything. */
  ghost predicate Drained<V>(s: State<V>, t: State<V>, c: nat, i: nat, g: nat) {
    && Moved(s, t, c, i, g)
    && (|s.rings[i].took| < |s.rings[i].sent| ==> g > 0)
    && var (x, z) := (s.consumers[c], t.consumers[c]);
       && t == s.(rings := s.rings[i := s.rings[i].(took := t.rings[i].took)], consumers := s.consumers[c := z])
       && x.pc.Drain? && x.i == i && z.pc.Release? && z.got == g && z.i == i && z.k == x.k && z.n == x.n
       && z.first == x.first && z.final == x.final && z.done == x.done
  }

  lemma DrainMoves<V>(s: State<V>, c: nat, j: nat)
    requires c < |s.consumers| && s.consumers[c].pc.Drain? && s.consumers[c].i < |s.rings| && Local(s, s.consumers[c])
    requires |s.rings[s.consumers[c].i].took| <= |s.rings[s.consumers[c].i].sent|
    ensures Drained(s, DrainStep(s, c, j), c, s.consumers[c].i, Portion(s.rings[s.consumers[c].i], s.consumers[c], j))
  {
    hide Parcels;
  }

  lemma DrainClaims<V>(s: State<V>, t: State<V>, c: nat, i: nat, g: nat)
    requires Claims(s) && ClaimRange(s) && Drained(s, t, c, i, g)
    ensures Claims(t) && ClaimRange(t)
  {
    hide Parcels;
  }

  /** A drained ring that still holds something is the drainer's duty. */
  lemma DrainDuty<V>(s: State<V>, t: State<V>, c: nat, i: nat, g: nat, k: nat)
    requires Drained(s, t, c, i, g) && c < |s.consumers| && i < |s.rings| && k < |s.rings| && |t.rings| == |s.rings| && Duty(s, k)
    ensures Duty(t, k)
  {
    hide Parcels;
    if |t.rings[k].took| < |t.rings[k].sent| {
      MovedGrows(s, t, c, i, g, k);
      var d :| 0 <= d < |s.consumers| && Obliged(s.consumers[d], k);
      assert Obliged(t.consumers[d], k);
    }
  }

  lemma MovedGrows<V>(s: State<V>, t: State<V>, c: nat, i: nat, g: nat, k: nat)
    requires Moved(s, t, c, i, g) && k < |s.rings|
    ensures |s.rings[k].took| <= |t.rings[k].took| && t.rings[k].sent == s.rings[k].sent
  {
  }

  lemma DrainKeeps<V>(s: State<V>, c: nat, j: nat)
    requires Inv(s) && c < |s.consumers| && s.consumers[c].pc.Drain? && s.consumers[c].i < |s.rings|
    requires |s.rings[s.consumers[c].i].took| <= |s.rings[s.consumers[c].i].sent|
    ensures Inv(DrainStep(s, c, j))
  {
    hide Parcels, Counts, Final, LogTrue, Local, Claims, ClaimRange, RingTold, Duty, DrainStep, Portion;
    var t := DrainStep(s, c, j);
    var i := s.consumers[c].i;
    var g := Portion(s.rings[i], s.consumers[c], j);
    assert Local(s, s.consumers[c]);
    DrainLocal(s, c, j);
    DrainMoves(s, c, j);
    assert Moved(s, t, c, i, g);
    hide Moved;
    CountsFrame(s, t);
    DrainClaims(s, t, c, i, g);
    forall d | 0 <= d < |t.consumers| ensures Local(t, t.consumers[d]) && Final(t, t.consumers[d]) && LogTrue(t, d) {
      assert LogTrue(s, d);
      if d == c { MovedLog(s, t, c, i, g); } else { DrainOthers(s, t, c, i, g, d); }
    }
    forall k | 0 <= k < |t.rings| ensures RingTold(t, k) && Duty(t, k) {
      assert RingTold(s, k) && Duty(s, k);
      MovedTold(s, t, c, i, g, k);
      DrainDuty(s, t, c, i, g, k);
    }
  }

  lemma DrainOthers<V>(s: State<V>, t: State<V>, c: nat, i: nat, g: nat, d: nat)
    requires Inv(s) && Moved(s, t, c, i, g) && d < |s.consumers| && d != c && t.consumers[d] == s.consumers[d] && t.live == s.live
    ensures Local(t, t.consumers[d]) && Final(t, t.consumers[d]) && LogTrue(t, d)
  {
    hide Counts, Claims, ClaimRange, Duty, Parcels;
    assert Local(s, s.consumers[d]) && Final(s, s.consumers[d]) && LogTrue(s, d);
    forall k | 0 <= k < |s.rings|
      ensures s.rings[k].took <= t.rings[k].took && s.rings[k].sent <= t.rings[k].sent && |t.rings[k].took| <= |t.rings[k].sent|
    {
      assert RingTold(s, k);
    }
    LogFrame(s, t, d);
  }

  // ---- membership ---------------------------------------------------------------------

  ghost predicate Grown<V>(s: State<V>, t: State<V>) {
    && t.consumers == s.consumers && t.fault == s.fault && |s.rings| <= |t.rings|
    && (forall i :: 0 <= i < |s.rings| ==>
          t.rings[i].took == s.rings[i].took && t.rings[i].claim == s.rings[i].claim && s.rings[i].sent <= t.rings[i].sent)
    && (forall i :: |s.rings| <= i < |t.rings| ==> t.rings[i].claim.None? && t.rings[i].took == [] && t.rings[i].sent == [])
  }

  /** While anyone can still send, no consumer has begun its last scan, so growth owes nothing. */
  lemma GrownKeeps<V>(s: State<V>, t: State<V>)
    requires Inv(s) && s.live != 0 && Grown(s, t) && Counts(t)
    ensures Inv(t)
  {
    hide Counts, Count;
    forall i, c | 0 <= i < |t.rings| && 0 <= c < |t.consumers| ensures t.rings[i].claim == Some(c) <==> Holds(t.consumers[c], i) {
      assert Local(s, s.consumers[c]);
      if i < |s.rings| { assert s.rings[i].claim == Some(c) <==> Holds(s.consumers[c], i); }
    }
    assert Claims(t) && ClaimRange(t);
    hide Claims, ClaimRange, Holds;
    forall j | 0 <= j < |s.rings| ensures s.rings[j].took <= t.rings[j].took && |t.rings[j].took| <= |t.rings[j].sent| {
      assert RingTold(s, j);
    }
    forall d | 0 <= d < |t.consumers| ensures Local(t, t.consumers[d]) && Final(t, t.consumers[d]) && LogTrue(t, d) {
      assert Local(s, s.consumers[d]) && LogTrue(s, d);
      LogFrame(s, t, d);
    }
    forall i | 0 <= i < |t.rings| ensures RingTold(t, i) && Duty(t, i) {
      assert Local(s, s.consumers[0]);
      assert Obliged(t.consumers[0], i);
      if i < |s.rings| { assert RingTold(s, i); }
    }
  }

  lemma StageCounts<V>(s: State<V>, i: nat, stage: Stage, live: int, count: nat)
    requires Counts(s) && i < |s.rings| && (InFlight(stage) ==> InFlight(s.rings[i].stage))
    requires live == s.live + (if stage.Live? then 1 else 0) - (if s.rings[i].stage.Live? then 1 else 0)
    requires !stage.Entered? && count == s.count + (if s.runtime.Locked? && s.rings[i].stage.Entered? then 1 else 0)
    ensures Counts(SetRing(s, i, s.rings[i].(stage := stage)).(live := live, count := count))
  {
    hide Count;
    var t := SetRing(s, i, s.rings[i].(stage := stage)).(live := live, count := count);
    CountUpdate(LiveFlags(s.rings), i, stage.Live?);
    CountUpdate(ShownFlags(s.rings), i, true);
    assert LiveFlags(t.rings) == LiveFlags(s.rings)[i := stage.Live?];
    assert ShownFlags(t.rings) == ShownFlags(s.rings)[i := true];
  }

  lemma EnterCounts<V>(s: State<V>, a: nat)
    requires Counts(s)
    ensures Counts(MemberStep(s, Enter(a)))
  {
    hide Count;
    var t := MemberStep(s, Enter(a));
    if |t.rings| > |s.rings| {
      CountAppend(LiveFlags(s.rings), false);
      CountAppend(ShownFlags(s.rings), false);
      assert LiveFlags(t.rings) == LiveFlags(s.rings) + [false];
      assert ShownFlags(t.rings) == ShownFlags(s.rings) + [false];
    }
  }

  lemma RegistrarCounts<V>(s: State<V>, e: Event<V>)
    requires Counts(s) && (e.CloneRegistrar? || e.DropRegistrar?)
    ensures Counts(MemberStep(s, e))
  {
    hide Count;
    if e.CloneRegistrar? {
      CountAppend(s.registrars, true);
    } else if e.a < |s.registrars| {
      CountUpdate(s.registrars, e.a, false);
    }
  }

  lemma MemberCounts<V>(s: State<V>, e: Event<V>)
    requires Counts(s)
    ensures Counts(MemberStep(s, e))
  {
    var t := MemberStep(s, e);
    match e
    case CloneRegistrar(_) => RegistrarCounts(s, e);
    case DropRegistrar(_) => RegistrarCounts(s, e);
    case Enter(a) => EnterCounts(s, a);
    case Publish(i) => if t != s { StageCounts(s, i, Published, t.live, t.count); }
    case GoLive(i) => if t != s { StageCounts(s, i, Live, t.live, t.count); }
    case DropProducer(i) => if t != s { StageCounts(s, i, Dead, t.live, t.count); }
    case Push(_, _) => CountsFrame(s, t);
    case _ =>
  }

  lemma SettledStays<V>(s: State<V>, e: Event<V>)
    requires Counts(s) && s.live == 0
    ensures MemberStep(s, e) == s
  {
    Settled(s);
    hide Counts, Count;
  }

  lemma MemberGrows<V>(s: State<V>, e: Event<V>)
    ensures Grown(s, MemberStep(s, e))
  {
  }

  lemma MemberKeeps<V>(s: State<V>, e: Event<V>)
    requires Inv(s)
    ensures Inv(MemberStep(s, e))
  {
    hide MemberStep, Counts, Grown;
    if s.live == 0 {
      SettledStays(s, e);
    } else {
      MemberCounts(s, e);
      MemberGrows(s, e);
      GrownKeeps(s, MemberStep(s, e));
    }
  }

  lemma CloneKeeps<V>(s: State<V>, c: nat, seed: nat)
    requires Inv(s)
    ensures Inv(Step(s, CloneConsumer(c, seed)))
  {
    hide Count, Obliged;
    var t := Step(s, CloneConsumer(c, seed));
    if |t.consumers| > |s.consumers| {
      assert Local(s, s.consumers[c]);
      assert Counts(t);
      hide Counts;
      forall i, d | 0 <= i < |t.rings| && 0 <= d < |t.consumers| ensures t.rings[i].claim == Some(d) <==> Holds(t.consumers[d], i) {
        if d < |s.consumers| { assert s.rings[i].claim == Some(d) <==> Holds(s.consumers[d], i); }
      }
      assert Claims(t) && ClaimRange(t);
      hide Claims, ClaimRange, Holds;
      forall d | 0 <= d < |t.consumers| ensures Local(t, t.consumers[d]) && Final(t, t.consumers[d]) && LogTrue(t, d) {
        if d < |s.consumers| { assert Local(s, s.consumers[d]) && Final(s, s.consumers[d]) && LogTrue(s, d); }
      }
      forall i | 0 <= i < |t.rings| ensures RingTold(t, i) && Duty(t, i) {
        assert RingTold(s, i) && Duty(s, i);
        if |s.rings[i].took| < |s.rings[i].sent| {
          var d :| 0 <= d < |s.consumers| && Obliged(s.consumers[d], i);
          assert t.consumers[d] == s.consumers[d];
        }
      }
    }
  }

  // ---- every run ------------------------------------------------------------------------

  lemma GoKeeps<V>(s: State<V>, c: nat, j: nat)
    requires Inv(s) && c < |s.consumers|
    ensures Inv(GoStep(s, c, j))
  {
    var x := s.consumers[c];
    assert Local(s, x);
    hide Counts, Claims, ClaimRange, Final, LogTrue, Duty;
    match x.pc
    case Entry => EntryKeeps(s, c);
    case LoadCount => LoadCountKeeps(s, c);
    case Select => SelectKeeps(s, c);
    case Refresh => RefreshKeeps(s, c);
    case Pick => PickKeeps(s, c);
    case Claim => if s.rings[x.i].claim.Some? { BusyKeeps(s, c); } else { ClaimKeeps(s, c); }
    case Drain =>
      assert RingTold(s, x.i);
      DrainKeeps(s, c, j);
    case Release => ReleaseKeeps(s, c);
    case CheckLive => CheckLiveKeeps(s, c);
    case _ =>
  }

  lemma RestingKeeps<V>(s: State<V>, c: nat, y: Consumer<V>)
    requires Inv(s) && c < |s.consumers| && Resting(s.consumers[c].pc)
    requires y.log == s.consumers[c].log && Local(s, y) && !Scanning(y.pc)
    requires (y.pc.Finished? || y.pc.Retired?) ==> s.consumers[c].pc.Finished?
    ensures Inv(SetCon(s, c, y))
  {
    hide Counts, Claims, ClaimRange, LogTrue, Duty, RingTold;
    QuietKeeps(s, c, y);
  }

  lemma StepKeeps<V>(s: State<V>, e: Event<V>)
    requires Inv(s)
    ensures Inv(Step(s, e))
  {
    match e
    case CloneConsumer(c, seed) => CloneKeeps(s, c, seed);
    case Go(c, j) => if c < |s.consumers| { GoKeeps(s, c, j); }
    case Unwind(c) => if c < |s.consumers| { UnwindKeeps(s, c); }
    case DropConsumer(c) => if c < |s.consumers| && Resting(s.consumers[c].pc) { OwnKeeps(s, c, e); }
    case SetBatch(c, _) => if c < |s.consumers| && Resting(s.consumers[c].pc) { OwnKeeps(s, c, e); }
    case Call(c, _, _) => if c < |s.consumers| && Resting(s.consumers[c].pc) { OwnKeeps(s, c, e); }
    case _ => MemberKeeps(s, e);
  }

  /** What a consumer's owner does to it between calls. */
  lemma OwnKeeps<V>(s: State<V>, c: nat, e: Event<V>)
    requires Inv(s) && c < |s.consumers| && Resting(s.consumers[c].pc)
    requires (e.DropConsumer? || e.SetBatch? || e.Call?) && e.c == c
    ensures Inv(Step(s, e))
  {
    assert Local(s, s.consumers[c]);
    hide Counts, Claims, ClaimRange, LogTrue, Duty, RingTold, Final;
    RestingKeeps(s, c, Step(s, e).consumers[c]);
  }

  lemma {:induction false} RunInv<V>(runtime: Runtime, cap: nat, es: seq<Event<V>>)
    ensures Inv(Run(runtime, cap, es))
  {
    if es == [] {
      assert Count([true]) == 1 by { assert [true][..0] == []; }
      assert LiveFlags<V>([]) == [] && ShownFlags<V>([]) == [];
    } else {
      RunInv(runtime, cap, es[..|es| - 1]);
      StepKeeps(Run(runtime, cap, es[..|es| - 1]), es[|es| - 1]);
    }
  }

  // ---- theorems ---------------------------------------------------------------------------

  /** A claim admits one consumer at a time. */
  lemma ClaimExclusive<V>(runtime: Runtime, cap: nat, es: seq<Event<V>>, c: nat, d: nat, i: nat)
    requires var s := Run(runtime, cap, es);
      c < |s.consumers| && d < |s.consumers| && i < |s.rings| && Holds(s.consumers[c], i) && Holds(s.consumers[d], i)
    ensures c == d
  {
    RunInv(runtime, cap, es);
    var s := Run(runtime, cap, es);
    assert s.rings[i].claim == Some(c);
  }

  /** Where a value was received: consumer `c`, as its `m`-th. */
  predicate ReceivedAt<V(==)>(s: State<V>, x: Parcel<V>, c: nat, m: nat) {
    c < |s.consumers| && m < |s.consumers[c].log| && s.consumers[c].log[m] == x
  }

  ghost predicate WasReceived<V>(s: State<V>, i: nat, p: nat)
    requires i < |s.rings| && p < |s.rings[i].sent|
  {
    exists c, m :: ReceivedAt(s, Parcel(i, p, s.rings[i].sent[p]), c, m)
  }

  /** Exactly once: what left a ring was received by one consumer, once, as sent; and what a consumer
      handed to its caller plus what it still stages is all it received, in each producer's order. */
  lemma ExactlyOnce<V>(runtime: Runtime, cap: nat, es: seq<Event<V>>)
    ensures var s := Run(runtime, cap, es);
      && !s.fault
      && (forall i, p :: 0 <= i < |s.rings| && 0 <= p < |s.rings[i].took| <= |s.rings[i].sent| ==> WasReceived(s, i, p))
      && (forall x, c, m, d, m' :: ReceivedAt(s, x, c, m) && ReceivedAt(s, x, d, m') ==> c == d && m == m')
      && (forall c :: 0 <= c < |s.consumers| ==> s.consumers[c].log == s.consumers[c].out + s.consumers[c].staging && LogTrue(s, c))
  {
    RunInv(runtime, cap, es);
    var s := Run(runtime, cap, es);
    forall i, p | 0 <= i < |s.rings| && 0 <= p < |s.rings[i].took| <= |s.rings[i].sent|
      ensures WasReceived(s, i, p)
    {
      Received(s, i, p);
    }
    forall x, c, m, d, m' | ReceivedAt(s, x, c, m) && ReceivedAt(s, x, d, m') ensures c == d && m == m' {
      OnlyOnce(s, x, c, m, d, m');
    }
    forall c | 0 <= c < |s.consumers| ensures s.consumers[c].log == s.consumers[c].out + s.consumers[c].staging && LogTrue(s, c) {
      assert Local(s, s.consumers[c]);
    }
  }

  lemma Received<V>(s: State<V>, i: nat, p: nat)
    requires Inv(s) && i < |s.rings| && p < |s.rings[i].took| <= |s.rings[i].sent|
    ensures WasReceived(s, i, p)
  {
    assert RingTold(s, i);
    var x, c := Parcel(i, p, s.rings[i].sent[p]), s.rings[i].took[p];
    var m :| 0 <= m < |s.consumers[c].log| && s.consumers[c].log[m] == x;
    assert ReceivedAt(s, x, c, m);
  }

  lemma OnlyOnce<V>(s: State<V>, x: Parcel<V>, c: nat, m: nat, d: nat, m': nat)
    requires Inv(s) && ReceivedAt(s, x, c, m) && ReceivedAt(s, x, d, m')
    ensures c == d && m == m'
  {
    assert LogTrue(s, c) && LogTrue(s, d);
    assert Entitled(s, c, s.consumers[c].log[m]) && Entitled(s, d, s.consumers[d].log[m']);
  }

  /** Shutdown strands nothing: when every registrar and producer is gone and every consumer has been told
      so by an empty-handed receive, every ring is empty and every value sent was handed to a caller. */
  lemma NothingStranded<V>(runtime: Runtime, cap: nat, es: seq<Event<V>>)
    ensures var s := Run(runtime, cap, es); forall c :: 0 <= c < |s.consumers| && s.consumers[c].pc.Finished? ==> s.live == 0
    ensures var s := Run(runtime, cap, es);
      (forall c :: 0 <= c < |s.consumers| ==> s.consumers[c].pc.Finished? || s.consumers[c].pc.Retired?) ==>
        && s.live == 0
        && (forall i :: 0 <= i < |s.rings| ==> |s.rings[i].took| == |s.rings[i].sent| && s.rings[i].claim.None?)
        && (forall c :: 0 <= c < |s.consumers| ==> s.consumers[c].out == s.consumers[c].log)
        && (forall i, p :: 0 <= i < |s.rings| && 0 <= p < |s.rings[i].sent| ==> WasReceived(s, i, p))
  {
    RunInv(runtime, cap, es);
    var s := Run(runtime, cap, es);
    hide Run;
    forall c | 0 <= c < |s.consumers| && s.consumers[c].pc.Finished? ensures s.live == 0 { assert Local(s, s.consumers[c]); }
    if forall c :: 0 <= c < |s.consumers| ==> s.consumers[c].pc.Finished? || s.consumers[c].pc.Retired? {
      forall c | 0 <= c < |s.consumers| ensures s.consumers[c].out == s.consumers[c].log && s.live == 0 {
        assert Local(s, s.consumers[c]);
      }
      assert Local(s, s.consumers[0]);
      forall i | 0 <= i < |s.rings| ensures |s.rings[i].took| == |s.rings[i].sent| && s.rings[i].claim.None? {
        assert RingTold(s, i) && Duty(s, i);
        assert s.rings[i].claim.Some? ==> Holds(s.consumers[s.rings[i].claim.value], i);
      }
      forall i, p | 0 <= i < |s.rings| && 0 <= p < |s.rings[i].sent|
        ensures WasReceived(s, i, p)
      {
        Received(s, i, p);
      }
    }
  }
}
