/** Every run of the gathering receiver: per-producer order exactly once, and an end reported only when all is drained. */
module MpscSafety {
  import opened Items
  import opened Tally
  import opened Custody
  import opened Mpsc

  // ---- invariant --------------------------------------------------------------------------

  ghost predicate Places<V>(s: State<V>) {
    |s.at| == |s.rings| && Box(s.inbox, s.at, Inbox) && Box(s.rx.shards, s.at, Shard) && Box(s.pool, s.at, Pooled)
  }

  predicate CountsLive(stage: Stage) { !stage.Made? && !stage.Released? }

  function LiveFlags<V>(ps: seq<Producer<V>>): seq<bool> { seq(|ps|, p requires 0 <= p < |ps| => CountsLive(ps[p].stage)) }
  function LateFlags<V>(ps: seq<Producer<V>>): seq<bool> { seq(|ps|, p requires 0 <= p < |ps| => ps[p].stage.Deposited?) }

  ghost predicate Counts<V>(s: State<V>) {
    && s.live == Count(s.registrars) + Count(LiveFlags(s.producers))
    && forall p :: 0 <= p < |s.producers| && InFlight(s.producers[p].stage) ==>
         s.producers[p].registrar < |s.registrars| && s.registrars[s.producers[p].registrar]
  }

  /** The generation lags the deposits by those still in progress, and what was seen never exceeds what was taken. */
  ghost predicate Generations<V>(s: State<V>) {
    && s.entered == s.drained + |s.inbox|
    && s.entered == s.generation + Count(LateFlags(s.producers))
    && s.seen <= s.drained
    && (s.rx.pc.Append? ==> s.rx.pc.g <= s.entered)
  }

  predicate Gone(stage: Stage) { stage.TxGone? || stage.ArcGone? || stage.Released? }
  predicate Apart(stage: Stage) { stage.ArcGone? || stage.Released? }

  /** A producer and its ring: until it was reset for a later producer, the ring is scanned, or on its way, or spent. */
  ghost predicate ProdOk<V>(s: State<V>, p: nat)
    requires p < |s.producers| && |s.at| == |s.rings|
  {
    var x := s.producers[p];
    && x.ring < |s.rings|
    && var r := s.rings[x.ring];
       if r.owner != p then Apart(x.stage) else
         && (r.gone <==> Gone(x.stage))
         && (if x.stage.Made? || x.stage.Counted? then s.at[x.ring].Held? else
               s.at[x.ring].Inbox? || s.at[x.ring].Shard? ||
               ((s.at[x.ring].Pooled? || s.at[x.ring].Freed?) && r.gone && r.queue == []))
  }

  ghost predicate RingOk<V>(s: State<V>, r: nat)
    requires r < |s.rings|
  {
    s.rings[r].owner < |s.producers| && s.producers[s.rings[r].owner].ring == r
  }

  /** What is still in the ring for producer `p`. */
  function Rest<V>(s: State<V>, p: nat): seq<V>
    requires p < |s.producers|
  {
    var r := s.producers[p].ring;
    if r < |s.rings| && s.rings[r].owner == p then s.rings[r].queue else []
  }

  /** Conservation: received, then staged, then still in the ring is exactly what was sent, in order. */
  ghost predicate Kept<V>(s: State<V>, p: nat)
    requires p < |s.producers|
  {
    From(s.rx.out + s.rx.staging, p) + Rest(s, p) == s.producers[p].sent
  }

  ghost predicate RxOk<V>(s: State<V>) {
    var x := s.rx;
    && x.batch > 0
    && (x.pc.Idle? || x.pc.Entry? || x.staging == [])
    && (x.last ==> s.live == 0 && x.kind.Recv?)
    && (x.pre ==> x.last)
    && (x.pc.CheckLive? ==> x.kind.Recv?)
    && (Resting(x.pc) || x.pc.CheckLive? ==> !x.last)
    && (x.pc.Pass? ==> !x.pre && (x.last ==> s.inbox == [] && x.pc.k == |x.shards|))
    && (x.pc.Check? ==> !x.pre && x.pc.i < |x.shards| && (x.last ==> s.inbox == [] && x.pc.k + 1 == |x.shards|))
    && (x.pc.Check? && x.last && x.shards[x.pc.i] < |s.rings| ==> s.rings[x.shards[x.pc.i]].queue == [])
    && (x.pc.Finished? ==> s.live == 0 && s.inbox == [] && x.shards == [])
  }

  ghost predicate Inv<V>(s: State<V>) {
    && !s.fault && Places(s) && Counts(s) && Generations(s) && RxOk(s) && Known(s.rx.out + s.rx.staging, |s.producers|)
    && (forall p :: 0 <= p < |s.producers| ==> ProdOk(s, p) && Kept(s, p))
    && (forall r :: 0 <= r < |s.rings| ==> RingOk(s, r))
  }

  /** With no sender live, every registration and every producer has ended, and every deposit is counted. */
  lemma Settled<V>(s: State<V>)
    requires Counts(s) && Generations(s) && s.live == 0
    ensures forall p :: 0 <= p < |s.producers| ==> s.producers[p].stage.Released?
    ensures forall a :: 0 <= a < |s.registrars| ==> !s.registrars[a]
    ensures s.generation == s.entered
  {
    CountExtremes(s.registrars);
    CountExtremes(LiveFlags(s.producers));
    CountExtremes(LateFlags(s.producers));
    forall p | 0 <= p < |s.producers| ensures s.producers[p].stage.Released? { assert !LiveFlags(s.producers)[p]; }
  }

  // ---- receiver steps that move no value -----------------------------------------------------

  /** The receiver's pc, cursor and call bookkeeping change, and the items it has handed over or staged stay together. */
  lemma QuietKeeps<V>(s: State<V>, y: Receiver<V>)
    requires Inv(s) && y.shards == s.rx.shards && y.out + y.staging == s.rx.out + s.rx.staging
    requires RxOk(s.(rx := y)) && (y.pc.Append? ==> y.pc.g <= s.entered)
    ensures Inv(s.(rx := y))
  {
    hide Count, From, Box, RxOk, Known;
    var t := s.(rx := y);
    assert Places(t) && Counts(t) && Generations(t);
    assert |s.at| == |s.rings|;
    hide Places, Counts, Generations;
    forall p | 0 <= p < |t.producers| ensures ProdOk(t, p) && Kept(t, p) { assert ProdOk(s, p) && Kept(s, p); }
    forall r | 0 <= r < |t.rings| ensures RingOk(t, r) { assert RingOk(s, r); }
  }

  lemma EntryLocal<V>(x: Receiver<V>)
    requires x.pc.Entry?
    ensures var y := EntryStep(x); y.out + y.staging == x.out + x.staging && y.shards == x.shards && y.batch == x.batch && y.kind == x.kind
    ensures var y := EntryStep(x); if y.pc.Idle? then !y.last && !y.pre else y.pc.LoadGeneration? && y.staging == [] && y.last == x.last && y.pre == x.pre
  {
    var m := if !x.kind.Many? then 1 else if x.kind.max < |x.staging| then x.kind.max else |x.staging|;
    if m <= |x.staging| {
      Regroup(x.out, x.staging, m);
      if m == 1 { assert x.staging[..1] == [x.staging[0]]; }
    }
  }

  lemma EntryKeeps<V>(s: State<V>)
    requires Inv(s) && s.rx.pc.Entry?
    ensures Inv(s.(rx := EntryStep(s.rx)))
  {
    EntryLocal(s.rx);
    hide Places, Counts, Generations, From, Known, EntryStep;
    QuietKeeps(s, EntryStep(s.rx));
  }

  lemma LoadKeeps<V>(s: State<V>)
    requires Inv(s) && s.rx.pc.LoadGeneration?
    ensures Inv(GoStep(s, 0))
  {
    var x := s.rx;
    if s.live == 0 { Settled(s); }
    hide Places, Counts, Count, From;
    QuietKeeps(s, if s.lockFree || s.generation != s.seen then x.(pc := Append(s.generation)) else Refreshed(x));
  }

  lemma LiveKeeps<V>(s: State<V>)
    requires Inv(s) && s.rx.pc.CheckLive?
    ensures Inv(GoStep(s, 0))
  {
    hide Places, Counts, Generations, From;
    QuietKeeps(s, GoStep(s, 0).rx);
  }

  lemma EndKeeps<V>(s: State<V>, k: nat)
    requires Inv(s) && s.rx.pc == Pass(k) && (k == 0 || s.rx.shards == [] || (s.rx.kind.Many? && s.rx.pushed >= s.rx.kind.max))
    ensures Inv(s.(rx := EndPass(s.rx)))
  {
    hide Places, Counts, Generations, From;
    QuietKeeps(s, EndPass(s.rx));
  }

  // ---- the inbox is taken over ------------------------------------------------------------------

  lemma TakenBoxes(inbox: seq<nat>, shards: seq<nat>, pool: seq<nat>, at: seq<Place>)
    requires Box(inbox, at, Inbox) && Box(shards, at, Shard) && Box(pool, at, Pooled)
    ensures Box([], Taken(at), Inbox) && Box(shards + inbox, Taken(at), Shard) && Box(pool, Taken(at), Pooled)
  {
    var all := shards + inbox;
    forall i, j | 0 <= i < j < |all| ensures all[i] != all[j] {
      if i < |shards| <= j { assert at[all[i]] == Shard && at[all[j]] == Inbox; }
    }
    forall b | 0 <= b < |at| && Taken(at)[b] == Shard ensures b in all {
      if at[b] == Shard { assert b in shards; } else { assert b in inbox; }
    }
    forall b | 0 <= b < |at| && Taken(at)[b] == Pooled ensures b in pool { assert at[b] == Pooled; }
  }

  lemma AppendKeeps<V>(s: State<V>)
    requires Inv(s) && s.rx.pc.Append?
    ensures Inv(GoStep(s, 0))
  {
    hide Count, From, Box, Known;
    var t := GoStep(s, 0);
    TakenBoxes(s.inbox, s.rx.shards, s.pool, s.at);
    assert Places(t) && Counts(t) && Generations(t) && RxOk(t);
    assert |s.at| == |s.rings| == |t.at|;
    assert forall r :: 0 <= r < |s.at| ==> t.at[r] == if s.at[r].Inbox? then Shard else s.at[r];
    hide Places, Counts, Generations, RxOk;
    forall p | 0 <= p < |t.producers| ensures ProdOk(t, p) && Kept(t, p) { assert ProdOk(s, p) && Kept(s, p); }
    forall r | 0 <= r < |t.rings| ensures RingOk(t, r) { assert RingOk(s, r); }
  }

  // ---- draining a shard ---------------------------------------------------------------------------

  /** Moving the first `g` values of ring `r` to the receiver conserves every producer's values. */
  lemma DrainKept<V>(s: State<V>, t: State<V>, r: nat, g: nat, p: nat)
    requires r < |s.rings| && g <= |s.rings[r].queue| && p < |s.producers| && t.producers == s.producers && Kept(s, p)
    requires s.rings[r].owner < |s.producers| && s.producers[s.rings[r].owner].ring == r
    requires t.rings == s.rings[r := s.rings[r].(queue := s.rings[r].queue[g..])]
    requires t.rx.out + t.rx.staging == (s.rx.out + s.rx.staging) + Tagged(s.rings[r].owner, s.rings[r].queue[..g])
    ensures Kept(t, p)
  {
    hide From, Tagged;
    var q, o := s.rings[r].queue, s.rings[r].owner;
    var a := From(s.rx.out + s.rx.staging, p);
    FromConcat(s.rx.out + s.rx.staging, Tagged(o, q[..g]), p);
    FromTagged(o, q[..g], p);
    if o == p {
      Regroup(a, q, g);
      assert Rest(s, p) == q && Rest(t, p) == q[g..];
    } else {
      assert a + [] == a;
      assert Rest(s, p) == Rest(t, p);
    }
  }

  lemma HandLocal<V>(x: Receiver<V>, moved: seq<Item<V>>, k: nat)
    requires |moved| > 0 && x.staging == [] && x.batch > 0
    ensures var y := Hand(x, moved, k);
      && y.out + y.staging == (x.out + x.staging) + moved && y.shards == x.shards && y.batch == x.batch && y.kind == x.kind
      && (if x.kind.Many? then y.pc == Pass(k) && y.last == x.last && y.pre == x.pre && y.staging == [] else y.pc.Idle? && !y.last && !y.pre)
  {
    var staged := x.staging + moved;
    assert staged == [staged[0]] + staged[1..];
  }

  lemma DrainKeeps<V>(s: State<V>, k: nat, j: nat, r: nat, g: nat)
    requires Inv(s) && s.rx.pc == Pass(k) && k > 0 && s.rx.shards != [] && r == s.rx.shards[s.rx.cursor % |s.rx.shards|]
    requires r < |s.rings| && 0 < g <= |s.rings[r].queue|
    ensures Inv(s.(rings := s.rings[r := s.rings[r].(queue := s.rings[r].queue[g..])],
                   rx := Hand(s.rx, Tagged(s.rings[r].owner, s.rings[r].queue[..g]), k - 1)))
  {
    hide Count, From, Box;
    var q := s.rings[r].queue;
    var moved := Tagged(s.rings[r].owner, q[..g]);
    var t := s.(rings := s.rings[r := s.rings[r].(queue := q[g..])], rx := Hand(s.rx, moved, k - 1));
    assert |moved| == g;
    HandLocal(s.rx, moved, k - 1);
    assert RingOk(s, r);
    assert Known(t.rx.out + t.rx.staging, |t.producers|);
    hide Hand, Tagged, Known;
    assert Places(t) && Counts(t) && Generations(t) && RxOk(t);
    assert |s.at| == |s.rings| && s.at[r] == Shard by { ShardPlace(s, s.rx.cursor % |s.rx.shards|); }
    hide Places, Counts, Generations, RxOk;
    assert RingOk(s, r);
    forall p | 0 <= p < |t.producers| ensures ProdOk(t, p) && Kept(t, p) {
      assert ProdOk(s, p) && Kept(s, p);
      DrainKept(s, t, r, g, p);
    }
    forall r | 0 <= r < |t.rings| ensures RingOk(t, r) { assert RingOk(s, r); }
  }

  lemma ShardPlace<V>(s: State<V>, i: nat)
    requires Places(s) && i < |s.rx.shards|
    ensures s.rx.shards[i] < |s.at| == |s.rings| && s.at[s.rx.shards[i]] == Shard
  {
  }

  lemma PassKeeps<V>(s: State<V>, k: nat, j: nat)
    requires Inv(s) && s.rx.pc == Pass(k)
    ensures Inv(PassStep(s, k, j))
  {
    var x := s.rx;
    if k == 0 || x.shards == [] || (x.kind.Many? && x.pushed >= x.kind.max) {
      EndKeeps(s, k);
    } else {
      var i := x.cursor % |x.shards|;
      ShardPlace(s, i);
      var r := x.shards[i];
      var g := Amount(|s.rings[r].queue|, Limit(x), j);
      assert Limit(x) > 0;
      if g > 0 {
        hide Inv, Hand;
        DrainKeeps(s, k, j, r, g);
      } else {
        hide Places, Counts, Generations, From;
        QuietKeeps(s, x.(pc := Check(k - 1, i)));
      }
    }
  }

  // ---- disposing of a finished shard ----------------------------------------------------------------

  lemma BoxSwapRemove(q: seq<nat>, at: seq<Place>, i: nat, other: Place)
    requires Box(q, at, Shard) && i < |q| && !other.Shard?
    ensures q[i] < |at| && Box(SwapRemoved(q, i), at[q[i] := other], Shard)
  {
    var l := |q| - 1;
    var z := SwapRemoved(q, i);
    assert forall m :: 0 <= m < l ==> z[m] == if m == i then q[l] else q[m];
    forall x | 0 <= x < |at| && at[q[i] := other][x] == Shard ensures x in z {
      assert x in q;
      var m :| 0 <= m < |q| && q[m] == x;
      assert z[if m == l then i else m] == x;
    }
  }

  lemma DisposeKeeps<V>(s: State<V>, k: nat, i: nat)
    requires Inv(s) && s.rx.pc == Check(k, i) && i < |s.rx.shards|
    requires var r := s.rx.shards[i]; r < |s.rings| && r < |s.at| && s.rings[r].gone && |s.rings[r].queue| == 0
    ensures Inv(CheckStep(s, k, i))
  {
    hide Count, From, Box, Known;
    var t := CheckStep(s, k, i);
    var r := s.rx.shards[i];
    var to := if |s.pool| < s.poolCap then Pooled else Freed;
    ShardPlace(s, i);
    BoxSwapRemove(s.rx.shards, s.at, i, to);
    BoxOther(s.inbox, s.at, Inbox, r, to);
    if to == Pooled { BoxPush(s.pool, s.at, Pooled, r); } else { BoxOther(s.pool, s.at, Pooled, r, to); }
    assert |SwapRemoved(s.rx.shards, i)| == |s.rx.shards| - 1;
    hide SwapRemoved;
    assert t.at == s.at[r := to] && t.rings == s.rings && t.producers == s.producers && t.rx.out == s.rx.out && t.rx.staging == s.rx.staging;
    assert Places(t) && Counts(t) && Generations(t) && RxOk(t);
    assert |s.at| == |s.rings|;
    hide Places, Counts, Generations, RxOk, CheckStep;
    forall p | 0 <= p < |t.producers| ensures ProdOk(t, p) && Kept(t, p) { assert ProdOk(s, p) && Kept(s, p); }
    forall r | 0 <= r < |t.rings| ensures RingOk(t, r) { assert RingOk(s, r); }
  }

  lemma CheckKeeps<V>(s: State<V>, k: nat, i: nat)
    requires Inv(s) && s.rx.pc == Check(k, i)
    ensures Inv(CheckStep(s, k, i))
  {
    ShardPlace(s, i);
    var r := s.rx.shards[i];
    if s.rings[r].gone && |s.rings[r].queue| == 0 {
      DisposeKeeps(s, k, i);
    } else {
      if s.live == 0 {
        Settled(s);
        assert RingOk(s, r) && ProdOk(s, s.rings[r].owner);
      }
      hide Places, Counts, Generations, From;
      QuietKeeps(s, Forward(s.rx, k));
    }
  }

  lemma GoKeeps<V>(s: State<V>, j: nat)
    requires Inv(s)
    ensures Inv(GoStep(s, j))
  {
    hide Inv;
    match s.rx.pc
    case Entry => EntryKeeps(s);
    case LoadGeneration => LoadKeeps(s);
    case Append(_) => AppendKeeps(s);
    case Pass(k) => PassKeeps(s, k, j);
    case Check(k, i) => CheckKeeps(s, k, i);
    case CheckLive => LiveKeeps(s);
    case _ =>
  }

  // ---- senders ------------------------------------------------------------------------------------

  /** While a sender is live the receiver has no last sweep under way and has not reported the end. */
  lemma RxGrows<V>(s: State<V>, t: State<V>)
    requires RxOk(s) && t.rx == s.rx && s.live != 0
    ensures RxOk(t)
  {
  }

  lemma StageFlags<V>(s: State<V>, p: nat, x: Producer<V>)
    requires p < |s.producers|
    ensures var ps := s.producers[p := x];
      && Count(LiveFlags(ps)) == Count(LiveFlags(s.producers)) + (if CountsLive(x.stage) then 1 else 0) - (if CountsLive(s.producers[p].stage) then 1 else 0)
      && Count(LateFlags(ps)) == Count(LateFlags(s.producers)) + (if x.stage.Deposited? then 1 else 0) - (if s.producers[p].stage.Deposited? then 1 else 0)
  {
    var ps := s.producers[p := x];
    CountUpdate(LiveFlags(s.producers), p, CountsLive(x.stage));
    CountUpdate(LateFlags(s.producers), p, x.stage.Deposited?);
    assert LiveFlags(ps) == LiveFlags(s.producers)[p := CountsLive(x.stage)];
    assert LateFlags(ps) == LateFlags(s.producers)[p := x.stage.Deposited?];
  }

  /** A live stage or an alive registrar keeps `live` above zero. */
  lemma SomebodyLive<V>(s: State<V>)
    requires Counts(s)
    requires (exists p :: 0 <= p < |s.producers| && !s.producers[p].stage.Released?) || (exists a :: 0 <= a < |s.registrars| && s.registrars[a])
    ensures s.live > 0
  {
    CountExtremes(s.registrars);
    CountExtremes(LiveFlags(s.producers));
    if s.live == 0 {
      forall p | 0 <= p < |s.producers| ensures s.producers[p].stage.Released? {
        assert !LiveFlags(s.producers)[p];
      }
      assert false;
    }
  }

  /** What the others see when producer p changes itself and a ring only it may touch. */
  lemma OthersKept<V>(s: State<V>, t: State<V>, p: nat, y: Producer<V>, ring: Ring<V>, q: nat)
    requires p < |s.producers| && q < |s.producers| && q != p && |s.at| == |s.rings| && y.ring == s.producers[p].ring < |s.rings|
    requires t == s.(producers := s.producers[p := y], rings := s.rings[y.ring := ring], live := t.live) && ring.owner == s.rings[y.ring].owner
    requires s.rings[y.ring].owner == p || ring == s.rings[y.ring]
    requires ProdOk(s, q) && Kept(s, q)
    ensures ProdOk(t, q) && Kept(t, q)
  {
    hide From;
    assert Rest(t, q) == Rest(s, q);
  }

  lemma OwnCounts<V>(s: State<V>, t: State<V>, p: nat, y: Producer<V>)
    requires Counts(s) && Generations(s) && p < |s.producers| && t.producers == s.producers[p := y]
    requires t == s.(producers := t.producers, rings := t.rings, live := t.live) && y.registrar == s.producers[p].registrar
    requires !InFlight(s.producers[p].stage) && !InFlight(y.stage) && !s.producers[p].stage.Released?
    requires t.live == s.live - (if y.stage.Released? then 1 else 0)
    ensures Counts(t) && Generations(t)
  {
    StageFlags(s, p, y);
    hide Count, LiveFlags, LateFlags;
  }

  /** A step of producer p on its own ring, which leaves places, inbox and pool alone. */
  lemma OwnRingKeeps<V>(s: State<V>, t: State<V>, p: nat, y: Producer<V>, ring: Ring<V>)
    requires Inv(s) && p < |s.producers| && y.ring == s.producers[p].ring < |s.rings| && y.registrar == s.producers[p].registrar
    requires t == s.(producers := s.producers[p := y], rings := s.rings[y.ring := ring], live := t.live) && ring.owner == s.rings[y.ring].owner
    requires s.rings[y.ring].owner == p || ring == s.rings[y.ring]
    requires !InFlight(s.producers[p].stage) && !InFlight(y.stage) && !s.producers[p].stage.Released?
    requires t.live == s.live - (if y.stage.Released? then 1 else 0)
    requires |t.at| == |t.rings| && ProdOk(t, p) && Kept(t, p)
    ensures Inv(t)
  {
    SomebodyLive(s);
    OwnCounts(s, t, p, y);
    assert Places(t);
    RxGrows(s, t);
    hide Places, Known, Counts, Generations, RxOk, ProdOk, Kept;
    forall q | 0 <= q < |t.producers| ensures ProdOk(t, q) && Kept(t, q) {
      if q != p { OthersKept(s, t, p, y, ring, q); }
    }
    forall r | 0 <= r < |t.rings| ensures RingOk(t, r) { assert RingOk(s, r); }
  }

  lemma SendKeeps<V>(s: State<V>, p: nat, v: V)
    requires Inv(s) && p < |s.producers| && s.producers[p].stage.Live?
    ensures Inv(ProducerStep(s, Send(p, v)))
  {
    var t := ProducerStep(s, Send(p, v));
    assert ProdOk(s, p) && Kept(s, p);
    var x := s.producers[p];
    if |s.rings[x.ring].queue| < s.cap {
      assert Kept(t, p) by {
        hide From;
        assert Rest(t, p) == Rest(s, p) + [v];
      }
      hide Count, From, Places, Counts, Generations, RxOk;
      OwnRingKeeps(s, t, p, t.producers[p], t.rings[x.ring]);
    }
  }

  lemma DropKeeps<V>(s: State<V>, e: Event<V>)
    requires Inv(s) && (e.DropTx? || e.DropArc? || e.ReleaseLive?) && e.p < |s.producers|
    ensures Inv(ProducerStep(s, e))
  {
    hide Count, From, Counts, Generations, RxOk;
    var p := e.p;
    var t := ProducerStep(s, e);
    var x := s.producers[p];
    assert ProdOk(s, p) && Kept(s, p);
    assert |s.at| == |s.rings|;
    hide Places;
    if (e.DropTx? && x.stage.Live?) || (e.DropArc? && x.stage.TxGone?) || (e.ReleaseLive? && x.stage.ArcGone?) {
      assert s.rings == s.rings[x.ring := s.rings[x.ring]];
      assert Kept(t, p);
      OwnRingKeeps(s, t, p, t.producers[p], t.rings[x.ring]);
    }
  }

  // ---- joining -----------------------------------------------------------------------------------

  lemma SameRingsKeep<V>(s: State<V>, t: State<V>)
    requires Inv(s) && s.live != 0 && Counts(t) && t == s.(registrars := t.registrars, live := t.live)
    ensures Inv(t)
  {
    hide Count, From, Box, Known, Counts;
    assert Places(t) && Generations(t);
    RxGrows(s, t);
    hide Places, Generations, RxOk;
    forall q | 0 <= q < |t.producers| ensures ProdOk(t, q) && Kept(t, q) { assert ProdOk(s, q) && Kept(s, q); }
    forall r | 0 <= r < |t.rings| ensures RingOk(t, r) { assert RingOk(s, r); }
  }

  lemma RegistrarKeeps<V>(s: State<V>, e: Event<V>)
    requires Inv(s) && (e.CloneRegistrar? || e.DropRegistrar?)
    ensures Inv(JoinStep(s, e))
  {
    var t := JoinStep(s, e);
    if e.a < |s.registrars| && s.registrars[e.a] {
      SomebodyLive(s);
      CountAppend(s.registrars, true);
      CountUpdate(s.registrars, e.a, false);
      hide Count, From, LiveFlags, LateFlags, Known, Places, RxOk, Generations, Kept, RingOk;
      assert Counts(t);
      hide Counts, ProdOk;
      if t != s { SameRingsKeep(s, t); }
    }
  }

  lemma AppendFlags<V>(ps: seq<Producer<V>>, x: Producer<V>)
    requires x.stage.Made?
    ensures Count(LiveFlags(ps + [x])) == Count(LiveFlags(ps)) && Count(LateFlags(ps + [x])) == Count(LateFlags(ps))
  {
    CountAppend(LiveFlags(ps), false);
    CountAppend(LateFlags(ps), false);
    assert LiveFlags(ps + [x]) == LiveFlags(ps) + [false];
    assert LateFlags(ps + [x]) == LateFlags(ps) + [false];
  }

  /** A registration moves on without touching its ring. */
  lemma StageKeeps<V>(s: State<V>, t: State<V>, p: nat, stage: Stage)
    requires Inv(s) && p < |s.producers| && s.live != 0 && Counts(t) && Generations(t)
    requires t == SetStage(s, p, stage).(live := t.live, generation := t.generation)
    requires (s.producers[p].stage == Made && stage == Counted) || (s.producers[p].stage == Deposited && stage == Live)
    ensures Inv(t)
  {
    assert |s.at| == |s.rings| && Places(t);
    RxGrows(s, t);
    hide Counts, Generations, RxOk, Places, From, Known;
    forall q | 0 <= q < |t.producers| ensures ProdOk(t, q) && Kept(t, q) {
      assert ProdOk(s, q) && Kept(s, q);
      assert Rest(t, q) == Rest(s, q);
    }
    forall r | 0 <= r < |t.rings| ensures RingOk(t, r) { assert RingOk(s, r); }
  }

  lemma ProgressKeeps<V>(s: State<V>, e: Event<V>, p: nat)
    requires Inv(s) && p < |s.producers|
    requires (e == CountLive(p) && s.producers[p].stage.Made?) || (e == Bump(p) && s.producers[p].stage.Deposited?)
    ensures Inv(JoinStep(s, e))
  {
    hide Count, From, LiveFlags, LateFlags, Known, RxOk, Kept, ProdOk, RingOk;
    var t := JoinStep(s, e);
    assert ProdOk(s, p);
    SomebodyLive(s);
    StageFlags(s, p, t.producers[p]);
    hide Places;
    assert Counts(t) && Generations(t);
    StageKeeps(s, t, p, t.producers[p].stage);
  }

  lemma DepositPlaces<V>(s: State<V>, p: nat)
    requires Places(s) && p < |s.producers| && s.producers[p].ring < |s.at| && s.at[s.producers[p].ring] == Held
    ensures Places(DepositStep(s, p))
  {
    hide Box;
    var r := s.producers[p].ring;
    if s.lockFree { BoxPushFront(s.inbox, s.at, Inbox, r); } else { BoxPush(s.inbox, s.at, Inbox, r); }
    BoxOther(s.rx.shards, s.at, Shard, r, Inbox);
    BoxOther(s.pool, s.at, Pooled, r, Inbox);
  }

  lemma DepositRest<V>(s: State<V>, p: nat, q: nat)
    requires p < |s.producers| && s.producers[p].stage.Counted? && q < |s.producers| && |s.at| == |s.rings| && ProdOk(s, p) && ProdOk(s, q) && Kept(s, q)
    ensures var t := DepositStep(s, p); |t.at| == |t.rings| && ProdOk(t, q) && Kept(t, q)
  {
    hide From;
    var t := DepositStep(s, p);
    assert Rest(t, q) == Rest(s, q);
  }

  lemma DepositKeeps<V>(s: State<V>, p: nat)
    requires Inv(s) && p < |s.producers| && s.producers[p].stage.Counted?
    ensures Inv(DepositStep(s, p))
  {
    var t := DepositStep(s, p);
    assert ProdOk(s, p);
    SomebodyLive(s);
    StageFlags(s, p, t.producers[p]);
    DepositPlaces(s, p);
    assert |s.at| == |s.rings|;
    hide Count, LiveFlags, LateFlags, Known, Places, Kept;
    assert Counts(t) && Generations(t);
    RxGrows(s, t);
    hide Counts, Generations, RxOk;
    forall q | 0 <= q < |t.producers| ensures ProdOk(t, q) && Kept(t, q) { DepositRest(s, p, q); }
    forall r | 0 <= r < |t.rings| ensures RingOk(t, r) { assert RingOk(s, r); }
  }

  /** A brand new ring. */
  lemma NewRingPlaces<V>(s: State<V>, a: nat)
    requires Places(s) && s.pool == []
    ensures Places(MakeStep(s, a))
  {
    hide Box;
    BoxGrow(s.inbox, s.at, Inbox, Held);
    BoxGrow(s.rx.shards, s.at, Shard, Held);
    BoxGrow(s.pool, s.at, Pooled, Held);
  }

  lemma MadeKept<V>(s: State<V>, a: nat, t: State<V>)
    requires Known(s.rx.out + s.rx.staging, |s.producers|) && t == MakeStep(s, a) && |t.producers| == |s.producers| + 1
    ensures Known(t.rx.out + t.rx.staging, |t.producers|) && Kept(t, |s.producers|)
  {
    FromUnknown(s.rx.out + s.rx.staging, |s.producers|, |s.producers|);
  }

  lemma MadeCounts<V>(s: State<V>, t: State<V>, x: Producer<V>)
    requires Counts(s) && Generations(s) && x.stage.Made? && x.registrar < |s.registrars| && s.registrars[x.registrar]
    requires t == s.(rings := t.rings, at := t.at, pool := t.pool, producers := s.producers + [x])
    ensures Counts(t) && Generations(t)
  {
    AppendFlags(s.producers, x);
    hide Count, LiveFlags, LateFlags;
  }

  lemma NewRingKeeps<V>(s: State<V>, a: nat)
    requires Inv(s) && a < |s.registrars| && s.registrars[a] && s.pool == []
    ensures Inv(MakeStep(s, a))
  {
    var t := MakeStep(s, a);
    SomebodyLive(s);
    MadeKept(s, a, t);
    NewRingPlaces(s, a);
    assert |s.at| == |s.rings|;
    hide Count, From, LiveFlags, LateFlags, Known, Places, Counts, Generations;
    MadeCounts(s, t, t.producers[|s.producers|]);
    RxGrows(s, t);
    hide RxOk;
    forall q | 0 <= q < |t.producers| ensures ProdOk(t, q) && Kept(t, q) {
      if q < |s.producers| { assert ProdOk(s, q) && Kept(s, q); assert Rest(t, q) == Rest(s, q); }
    }
    forall r | 0 <= r < |t.rings| ensures RingOk(t, r) { if r < |s.rings| { assert RingOk(s, r); } }
  }

  /** A pooled ring leaves the pool, reset for a new producer or freed. */
  lemma PooledPlace<V>(s: State<V>)
    requires Inv(s) && s.pool != []
    ensures var r := s.pool[|s.pool| - 1];
      r < |s.at| == |s.rings| && s.at[r] == Pooled && s.rings[r].owner < |s.producers| && s.producers[s.rings[r].owner].ring == r && s.rings[r].queue == []
  {
    var r := s.pool[|s.pool| - 1];
    assert RingOk(s, r);
    assert ProdOk(s, s.rings[r].owner);
  }

  lemma LeavePool<V>(s: State<V>, to: Place)
    requires Places(s) && s.pool != [] && (to == Held || to == Freed)
    ensures var l := |s.pool| - 1; s.pool[l] < |s.at|
    ensures var l := |s.pool| - 1; var at := s.at[s.pool[l] := to];
      Box(s.inbox, at, Inbox) && Box(s.rx.shards, at, Shard) && Box(s.pool[..l], at, Pooled)
  {
    hide Box;
    var r := s.pool[|s.pool| - 1];
    BoxPopBack(s.pool, s.at, Pooled, to);
    BoxOther(s.inbox, s.at, Inbox, r, to);
    BoxOther(s.rx.shards, s.at, Shard, r, to);
  }

  lemma ReuseKeeps<V>(s: State<V>, a: nat)
    requires Inv(s) && a < |s.registrars| && s.registrars[a] && s.pool != []
    requires var r := s.pool[|s.pool| - 1]; r < |s.rings| && s.rings[r].owner < |s.producers| && Apart(s.producers[s.rings[r].owner].stage)
    ensures Inv(MakeStep(s, a))
  {
    PooledPlace(s);
    var t := MakeStep(s, a);
    var r := s.pool[|s.pool| - 1];
    SomebodyLive(s);
    MadeKept(s, a, t);
    LeavePool(s, Held);
    hide Count, From, Box, LiveFlags, LateFlags, Known, Counts, Generations;
    assert t.at == s.at[r := Held] && t.rings == s.rings[r := Ring([], false, |s.producers|)] && t.producers == s.producers + [Producer(r, a, Made, [])];
    assert Places(t);
    MadeCounts(s, t, t.producers[|s.producers|]);
    RxGrows(s, t);
    hide Places, RxOk, MakeStep;
    forall q | 0 <= q < |t.producers| ensures ProdOk(t, q) && Kept(t, q) {
      if q < |s.producers| { assert ProdOk(s, q) && Kept(s, q); assert Rest(t, q) == Rest(s, q); }
    }
    forall i | 0 <= i < |t.rings| ensures RingOk(t, i) { assert RingOk(s, i); }
  }

  lemma DiscardKeeps<V>(s: State<V>, a: nat)
    requires Inv(s) && a < |s.registrars| && s.registrars[a] && s.pool != []
    requires var r := s.pool[|s.pool| - 1]; r < |s.rings| && s.rings[r].owner < |s.producers| && !Apart(s.producers[s.rings[r].owner].stage)
    ensures Inv(MakeStep(s, a))
  {
    PooledPlace(s);
    var t := MakeStep(s, a);
    LeavePool(s, Freed);
    hide Count, From, Box, LiveFlags, LateFlags, Known;
    assert t == s.(pool := s.pool[..|s.pool| - 1], at := s.at[s.pool[|s.pool| - 1] := Freed]);
    assert Places(t) && Counts(t) && Generations(t) && RxOk(t);
    hide Places, Counts, Generations, RxOk;
    forall q | 0 <= q < |t.producers| ensures ProdOk(t, q) && Kept(t, q) { assert ProdOk(s, q) && Kept(s, q); }
    forall i | 0 <= i < |t.rings| ensures RingOk(t, i) { assert RingOk(s, i); }
  }

  lemma JoinKeeps<V>(s: State<V>, e: Event<V>)
    requires Inv(s)
    ensures Inv(JoinStep(s, e))
  {
    hide Inv, MakeStep;
    match e
    case CloneRegistrar(_) => RegistrarKeeps(s, e);
    case DropRegistrar(_) => RegistrarKeeps(s, e);
    case Make(a) =>
      if a < |s.registrars| && s.registrars[a] {
        if s.pool == [] {
          NewRingKeeps(s, a);
        } else {
          PooledPlace(s);
          if Apart(s.producers[s.rings[s.pool[|s.pool| - 1]].owner].stage) { ReuseKeeps(s, a); } else { DiscardKeeps(s, a); }
        }
      }
    case CountLive(p) => if p < |s.producers| && s.producers[p].stage.Made? { ProgressKeeps(s, e, p); }
    case Deposit(p) => if p < |s.producers| && s.producers[p].stage.Counted? { DepositKeeps(s, p); }
    case Bump(p) => if p < |s.producers| && s.producers[p].stage.Deposited? { ProgressKeeps(s, e, p); }
    case _ =>
  }

  // ---- every run -----------------------------------------------------------------------------------

  lemma StepKeeps<V>(s: State<V>, e: Event<V>)
    requires Inv(s)
    ensures Inv(Step(s, e))
  {
    hide Places, Counts, From;
    match e
    case Go(j) => GoKeeps(s, j);
    case SetBatch(_) =>
      hide Generations;
      QuietKeeps(s, Step(s, e).rx);
    case Call(_) =>
      hide Generations;
      QuietKeeps(s, Step(s, e).rx);
    case Send(p, v) => if p < |s.producers| && s.producers[p].stage.Live? { SendKeeps(s, p, v); }
    case DropTx(p) => if p < |s.producers| { DropKeeps(s, e); }
    case DropArc(p) => if p < |s.producers| { DropKeeps(s, e); }
    case ReleaseLive(p) => if p < |s.producers| { DropKeeps(s, e); }
    case _ => JoinKeeps(s, e);
  }

  lemma {:induction false} RunInv<V>(lockFree: bool, cap: nat, poolCap: nat, es: seq<Event<V>>)
    ensures Inv(Run(lockFree, cap, poolCap, es))
  {
    if es == [] {
      assert Count([true]) == 1 by { assert [true][..0] == []; }
      assert LiveFlags<V>([]) == [] && LateFlags<V>([]) == [];
    } else {
      RunInv(lockFree, cap, poolCap, es[..|es| - 1]);
      StepKeeps(Run(lockFree, cap, poolCap, es[..|es| - 1]), es[|es| - 1]);
    }
  }

  // ---- theorems ---------------------------------------------------------------------------------------

  /** Per-producer order, exactly once: what the receiver was handed from a producer, then what it stages, then what
      waits in that producer's ring, is what the producer sent. Resetting rings for later producers mixes nothing. */
  lemma OrderedExactlyOnce<V>(lockFree: bool, cap: nat, poolCap: nat, es: seq<Event<V>>, p: nat)
    requires p < |Run(lockFree, cap, poolCap, es).producers|
    ensures var s := Run(lockFree, cap, poolCap, es);
      !s.fault && From(s.rx.out, p) + From(s.rx.staging, p) + Rest(s, p) == s.producers[p].sent
  {
    RunInv(lockFree, cap, poolCap, es);
    var s := Run(lockFree, cap, poolCap, es);
    assert Kept(s, p);
    FromConcat(s.rx.out, s.rx.staging, p);
  }

  /** `recv` returns None only when no sender is live and shards, inbox and staging are drained: everything ever sent was handed over. */
  lemma EndMeansAll<V>(lockFree: bool, cap: nat, poolCap: nat, es: seq<Event<V>>)
    requires Run(lockFree, cap, poolCap, es).rx.pc.Finished?
    ensures var s := Run(lockFree, cap, poolCap, es);
      && s.live == 0 && s.inbox == [] && s.rx.shards == [] && s.rx.staging == []
      && forall p :: 0 <= p < |s.producers| ==> s.producers[p].stage.Released? && From(s.rx.out, p) == s.producers[p].sent
  {
    RunInv(lockFree, cap, poolCap, es);
    var s := Run(lockFree, cap, poolCap, es);
    Settled(s);
    hide Run;
    forall p | 0 <= p < |s.producers| ensures From(s.rx.out, p) == s.producers[p].sent {
      assert Kept(s, p) && ProdOk(s, p);
      assert s.rx.out + s.rx.staging == s.rx.out;
      hide From;
      var r := s.producers[p].ring;
      assert s.at[r] != Inbox && s.at[r] != Shard;
    }
  }
}
