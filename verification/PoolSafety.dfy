/** Every run of the producer pool: one sender per ring, no epoch mixing, and exactly when the last sweep is complete. */
module PoolSafety {
  import opened Arith
  import opened Tally
  import opened Items
  import opened Pool

  // ---- the sweep ----------------------------------------------------------------------------

  lemma SweepCovers(start: nat, n: nat, word: nat)
    requires 0 < n < word && start < word && (word % n == 0 || start + n <= word)
    ensures Covers(start, n, word)
  {
    forall i | 0 <= i < n ensures Visited(i, start, n, word) {
      var q := LapCovers(start, i, n);
      var t := q - start;
      if word % n == 0 { SlotReduced(q, word, n); } else { DivMod(q, 0, q, word); }
      assert Visit(start, t, n, word) == i;
    }
  }

  /** The remainder of a word less `d`. */
  lemma BackFrom(word: nat, d: nat, n: nat)
    requires 0 < n && d < n
    ensures (word - d) % n == if d <= word % n then word % n - d else word % n - d + n
  {
    var back: int := -(d as int);
    AddReduced(word, back, n);
    var r := word % n - d;
    if r >= 0 { DivMod(r, 0, r, n); } else { DivMod(r, -1, r + n, n); }
  }

  /** The shard a wrapped pass never looks at. */
  lemma SweepMisses(start: nat, n: nat, word: nat) returns (miss: nat)
    requires 0 < n < word && start < word && word % n != 0 && start + n > word
    ensures miss < n && !Visited(miss, start, n, word)
  {
    var m, w := word - start, word % n;
    miss := if w <= m then w + n - m - 1 else n - 1;
    forall t | 0 <= t < n ensures Visit(start, t, n, word) != miss {
      if t < m {
        DivMod(start + t, 0, start + t, word);
        BackFrom(word, m - t, n);
      } else {
        DivMod(start + t, 1, t - m, word);
        DivMod(t - m, 0, t - m, n);
      }
    }
  }

  /** A pass looks at every shard exactly when the cursor does not wrap during it, or wraps between shards. */
  lemma SweepComplete(start: nat, n: nat, word: nat)
    requires 0 < n < word && start < word
    ensures Covers(start, n, word) <==> word % n == 0 || start + n <= word
  {
    if word % n == 0 || start + n <= word {
      SweepCovers(start, n, word);
    } else {
      var miss := SweepMisses(start, n, word);
      assert !Visited(miss, start, n, word);
    }
  }

  // ---- invariant ------------------------------------------------------------------------------

  predicate Apart(stage: Stage) { stage.ArcGone? || stage.Released? }

  /** Bit, slot, ring and the one holder of the ring's sender agree. */
  ghost predicate RingOk<V>(s: State<V>, i: nat)
    requires WellFormed(s) && i < s.n
  {
    var (r, a) := (s.rings[i], s.at[i]);
    && (s.free[i] <==> a.Free?)
    && (s.slots[i] <==> a.Free? || a.Reserved? || a.Written?)
    && (r.gone <==> a.TxGone? || a.Spent?)
    && (r.queue != [] ==> a.With? || a.TxGone? || a.Spent?)
    && (r.hasOwner ==> r.owner < |s.producers| && s.producers[r.owner].ring == i)
    && (a.Reserved? ==> a.c < |s.claimers| && s.claimers[a.c].pc == TakeSlot(i))
    && (a.Holding? ==> a.c < |s.claimers| && s.claimers[a.c].pc == Hold(i))
    && (a.With? ==> r.hasOwner && r.owner == a.p && s.producers[a.p].stage.Live?)
    && (a.TxGone? ==> r.hasOwner && r.owner == a.p && s.producers[a.p].stage.FlagSet?)
    && (a.Spent? ==> r.hasOwner)
    && (!a.With? && !a.TxGone? && r.hasOwner ==> Apart(s.producers[r.owner].stage))
    && (a.Reset? ==> s.rx.pc.WriteSlot? && s.rx.pc.i == i)
    && (a.Written? ==> s.rx.pc.SetBit? && s.rx.pc.i == i)
  }

  ghost predicate ClaimOk<V>(s: State<V>, c: nat)
    requires WellFormed(s) && c < |s.claimers|
  {
    var x := s.claimers[c];
    && (x.pc.TakeSlot? ==> x.pc.i < s.n && s.at[x.pc.i] == Reserved(c))
    && (x.pc.Hold? ==> x.pc.i < s.n && s.at[x.pc.i] == Holding(c))
    && (!x.pc.Answered? ==> x.h < |s.handles| && s.handles[x.h])
  }

  ghost predicate ProdOk<V>(s: State<V>, p: nat)
    requires WellFormed(s) && p < |s.producers|
  {
    var x := s.producers[p];
    && x.ring < s.n
    && (x.stage.Live? ==> s.at[x.ring] == With(p))
    && (x.stage.FlagSet? ==> s.at[x.ring] == TxGone(p))
  }

  /** What is still in the ring for producer `p`. */
  function Rest<V>(s: State<V>, p: nat): seq<V>
    requires p < |s.producers|
  {
    var i := s.producers[p].ring;
    if i < |s.rings| && s.rings[i].hasOwner && s.rings[i].owner == p then s.rings[i].queue else []
  }

  ghost predicate Kept<V>(s: State<V>, p: nat)
    requires p < |s.producers|
  {
    From(s.rx.out + s.rx.staging, p) + Rest(s, p) == s.producers[p].sent
  }

  function LiveFlags<V>(ps: seq<Producer<V>>): seq<bool> { seq(|ps|, p requires 0 <= p < |ps| => !ps[p].stage.Released?) }

  ghost predicate Counts<V>(s: State<V>) { s.live == Count(s.handles) + Count(LiveFlags(s.producers)) }

  /** The shards seen so far in the last sweep are empty, and stay so. */
  ghost predicate Swept<V>(s: State<V>, m: nat)
    requires WellFormed(s)
  {
    forall t :: 0 <= t < m ==> s.rings[Visit(s.rx.start, t, s.n, s.word)].queue == []
  }

  predicate Visiting(pc: Pc) { pc.Check? || pc.WriteSlot? || pc.SetBit? }

  ghost predicate RxOk<V>(s: State<V>)
    requires WellFormed(s)
  {
    var x := s.rx;
    && x.batch > 0 && x.cursor < s.word && x.start < s.word
    && (x.pc.Idle? || x.pc.Entry? || x.staging == [])
    && (x.last ==> s.live == 0 && x.kind.Recv?)
    && (x.pc.CheckLive? ==> x.kind.Recv?)
    && (Resting(x.pc) || x.pc.CheckLive? ==> !x.last)
    && (x.pc.Pass? ==> x.pc.k <= s.n && x.cursor == (x.start + s.n - x.pc.k) % s.word && (x.last ==> Swept(s, s.n - x.pc.k)))
    && (Visiting(x.pc) ==>
          && x.pc.k < s.n && x.cursor == (x.start + s.n - x.pc.k - 1) % s.word && x.pc.i == x.cursor % s.n
          && (x.last ==> Swept(s, s.n - x.pc.k)))
    && (x.pc.WriteSlot? ==> s.at[x.pc.i].Reset?)
    && (x.pc.SetBit? ==> s.at[x.pc.i].Written?)
    && (x.pc.Finished? ==> s.live == 0 && Swept(s, s.n))
  }

  ghost predicate Inv<V>(s: State<V>) {
    && WellFormed(s) && !s.fault && Counts(s) && RxOk(s) && Known(s.rx.out + s.rx.staging, |s.producers|)
    && (forall i :: 0 <= i < s.n ==> RingOk(s, i))
    && (forall c :: 0 <= c < |s.claimers| ==> ClaimOk(s, c))
    && (forall p :: 0 <= p < |s.producers| ==> ProdOk(s, p) && Kept(s, p))
  }

  /** With no sender live, every producer has ended and no claim is under way. */
  lemma Settled<V>(s: State<V>)
    requires Inv(s) && s.live == 0
    ensures forall p :: 0 <= p < |s.producers| ==> s.producers[p].stage.Released?
    ensures forall h :: 0 <= h < |s.handles| ==> !s.handles[h]
    ensures forall c :: 0 <= c < |s.claimers| ==> s.claimers[c].pc.Answered?
  {
    CountExtremes(s.handles);
    CountExtremes(LiveFlags(s.producers));
    forall p | 0 <= p < |s.producers| ensures s.producers[p].stage.Released? { assert !LiveFlags(s.producers)[p]; }
    forall c | 0 <= c < |s.claimers| ensures s.claimers[c].pc.Answered? { assert ClaimOk(s, c); }
  }

  // ---- receiver steps ---------------------------------------------------------------------------

  lemma QuietKeeps<V>(s: State<V>, y: Receiver<V>)
    requires Inv(s) && y.out + y.staging == s.rx.out + s.rx.staging && RxOk(s.(rx := y))
    requires !s.rx.pc.WriteSlot? && !s.rx.pc.SetBit? && !y.pc.WriteSlot? && !y.pc.SetBit?
    ensures Inv(s.(rx := y))
  {
    hide Count, From, Known, RxOk, Swept;
    var t := s.(rx := y);
    forall i | 0 <= i < t.n ensures RingOk(t, i) { assert RingOk(s, i); }
    forall c | 0 <= c < |t.claimers| ensures ClaimOk(t, c) { assert ClaimOk(s, c); }
    hide RingOk, ClaimOk;
    forall p | 0 <= p < |t.producers| ensures ProdOk(t, p) && Kept(t, p) { assert ProdOk(s, p) && Kept(s, p); }
  }

  lemma EntryLocal<V>(n: nat, x: Receiver<V>)
    requires x.pc.Entry?
    ensures var y := EntryStep(n, x); y.out + y.staging == x.out + x.staging && y.cursor == x.cursor && y.batch == x.batch && y.kind == x.kind
    ensures var y := EntryStep(n, x);
      if y.pc.Idle? then !y.last && y.start == x.start else y.pc == Pass(n) && y.staging == [] && y.last == x.last && y.start == x.cursor
  {
    var m := if !x.kind.Many? then 1 else if x.kind.max < |x.staging| then x.kind.max else |x.staging|;
    if m <= |x.staging| {
      Regroup(x.out, x.staging, m);
      if m == 1 { assert x.staging[..1] == [x.staging[0]]; }
    }
  }

  lemma EntryKeeps<V>(s: State<V>)
    requires Inv(s) && s.rx.pc.Entry?
    ensures Inv(s.(rx := EntryStep(s.n, s.rx)))
  {
    hide Known, From, Counts, RingOk, EntryStep;
    EntryLocal(s.n, s.rx);
    DivMod(s.rx.cursor, 0, s.rx.cursor, s.word);
    QuietKeeps(s, EntryStep(s.n, s.rx));
  }

  /** Going on to the next shard after this one was found empty or finished. */
  lemma ForwardOk<V>(s: State<V>, k: nat)
    requires WellFormed(s) && RxOk(s) && Visiting(s.rx.pc) && s.rx.pc.k == k
    ensures var y := Forward(s.word, s.rx, k); RxOk(s.(rx := y)) && y.out == s.rx.out && y.staging == s.rx.staging
  {
    AddReduced(s.rx.start + s.n - k - 1, 1, s.word);
    var t := s.(rx := Forward(s.word, s.rx, k));
    if s.rx.last { assert Swept(t, s.n - k); }
  }

  lemma CheckKeeps<V>(s: State<V>, k: nat, i: nat)
    requires Inv(s) && s.rx.pc == Check(k, i)
    ensures Inv(CheckStep(s, k, i))
  {
    if !s.rings[i].gone || |s.rings[i].queue| > 0 || !s.at[i].Spent? {
      ForwardOk(s, k);
      QuietKeeps(s, Forward(s.word, s.rx, k));
    } else {
      ResetKeeps(s, k, i);
    }
  }

  lemma ResetKeeps<V>(s: State<V>, k: nat, i: nat)
    requires Inv(s) && s.rx.pc == Check(k, i) && s.rings[i].gone && |s.rings[i].queue| == 0 && s.at[i].Spent?
    ensures Inv(CheckStep(s, k, i))
  {
    hide Count, From, Known;
    var t := CheckStep(s, k, i);
    assert RxOk(t) by { if s.rx.last { assert Swept(t, s.n - k); } }
    hide RxOk, Swept;
    assert t.at == s.at[i := Reset] && t.rings == s.rings[i := s.rings[i].(gone := false)] && t.rx == s.rx.(pc := WriteSlot(k, i));
    forall j | 0 <= j < t.n ensures RingOk(t, j) { assert RingOk(s, j); }
    forall c | 0 <= c < |t.claimers| ensures ClaimOk(t, c) { assert ClaimOk(s, c); }
    hide RingOk, ClaimOk;
    forall p | 0 <= p < |t.producers| ensures ProdOk(t, p) && Kept(t, p) {
      assert ProdOk(s, p) && Kept(s, p);
      assert Rest(t, p) == Rest(s, p);
    }
  }

  lemma WriteKeeps<V>(s: State<V>, k: nat, i: nat)
    requires Inv(s) && s.rx.pc == WriteSlot(k, i)
    ensures Inv(GoStep(s, 0))
  {
    hide Count, From, Known;
    var t := GoStep(s, 0);
    assert RingOk(s, i);
    assert RxOk(t) by { if s.rx.last { assert Swept(t, s.n - k); } }
    hide RxOk, Swept;
    assert t == s.(at := s.at[i := Written], slots := s.slots[i := true], rx := s.rx.(pc := SetBit(k, i)));
    hide GoStep;
    forall j | 0 <= j < t.n ensures RingOk(t, j) { assert RingOk(s, j); }
    forall c | 0 <= c < |t.claimers| ensures ClaimOk(t, c) { assert ClaimOk(s, c); }
    hide RingOk, ClaimOk;
    forall p | 0 <= p < |t.producers| ensures ProdOk(t, p) && Kept(t, p) { assert ProdOk(s, p) && Kept(s, p); }
  }

  lemma SetBitKeeps<V>(s: State<V>, k: nat, i: nat)
    requires Inv(s) && s.rx.pc == SetBit(k, i)
    ensures Inv(GoStep(s, 0))
  {
    hide Count, From, Known;
    var t := GoStep(s, 0);
    assert RingOk(s, i);
    ForwardOk(s, k);
    var u := s.(rx := Forward(s.word, s.rx, k));
    assert t == u.(at := s.at[i := Free], free := s.free[i := true]);
    assert RxOk(t) by { if t.rx.last { assert Swept(u, s.n - k); } }
    assert t.rx.pc == Pass(k);
    hide RxOk, Swept, GoStep, Forward;
    forall j | 0 <= j < t.n ensures RingOk(t, j) { assert RingOk(s, j); }
    forall c | 0 <= c < |t.claimers| ensures ClaimOk(t, c) { assert ClaimOk(s, c); }
    hide RingOk, ClaimOk;
    forall p | 0 <= p < |t.producers| ensures ProdOk(t, p) && Kept(t, p) { assert ProdOk(s, p) && Kept(s, p); }
  }

  // ---- draining -----------------------------------------------------------------------------------

  lemma DrainKept<V>(s: State<V>, t: State<V>, i: nat, g: nat, p: nat)
    requires i < |s.rings| && g <= |s.rings[i].queue| && p < |s.producers| && t.producers == s.producers && Kept(s, p)
    requires s.rings[i].hasOwner && s.rings[i].owner < |s.producers| && s.producers[s.rings[i].owner].ring == i
    requires t.rings == s.rings[i := s.rings[i].(queue := s.rings[i].queue[g..])]
    requires t.rx.out + t.rx.staging == (s.rx.out + s.rx.staging) + Tagged(s.rings[i].owner, s.rings[i].queue[..g])
    ensures Kept(t, p)
  {
    hide From, Tagged;
    var q, o := s.rings[i].queue, s.rings[i].owner;
    var a := From(s.rx.out + s.rx.staging, p);
    FromConcat(s.rx.out + s.rx.staging, Tagged(o, q[..g]), p);
    FromTagged(o, q[..g], p);
    if o == p {
      Regroup(a, q, g);
      assert Rest(s, p) == q && Rest(t, p) == q[g..];
    } else {
      assert a + [] == a;
      assert Rest(s, p) == Rest(t, p);
    }
  }

  lemma HandLocal<V>(word: nat, x: Receiver<V>, moved: seq<Item<V>>, k: nat)
    requires word > 0 && |moved| > 0 && x.staging == []
    ensures var y := Hand(word, x, moved, k); y.out + y.staging == (x.out + x.staging) + moved
    ensures var y := Hand(word, x, moved, k); y.cursor == (x.cursor + 1) % word && y.start == x.start && y.batch == x.batch && y.kind == x.kind
    ensures var y := Hand(word, x, moved, k);
      if x.kind.Many? then y.pc == Pass(k) && y.last == x.last && y.staging == [] else y.pc.Idle? && !y.last
  {
    var staged := x.staging + moved;
    assert staged == [staged[0]] + staged[1..];
  }

  lemma KnownTagged<V>(items: seq<Item<V>>, o: nat, vals: seq<V>, n: nat)
    requires Known(items, n) && o < n
    ensures Known(items + Tagged(o, vals), n)
  {
  }

  /** Where the receiver stands after a drain that moved something. */
  lemma HandRx<V>(s: State<V>, t: State<V>, moved: seq<Item<V>>, k: nat)
    requires WellFormed(s) && WellFormed(t) && RxOk(s) && s.rx.pc == Pass(k) && k > 0 && |moved| > 0
    requires t.n == s.n && t.word == s.word && t.at == s.at && t.live == s.live && t.rx == Hand(s.word, s.rx, moved, k - 1)
    ensures RxOk(t) && t.rx.out + t.rx.staging == (s.rx.out + s.rx.staging) + moved && !t.rx.pc.WriteSlot? && !t.rx.pc.SetBit?
  {
    hide Hand, Swept;
    HandLocal(s.word, s.rx, moved, k - 1);
    AddReduced(s.rx.start + s.n - k, 1, s.word);
  }

  lemma DrainKeeps<V>(s: State<V>, k: nat, i: nat, g: nat)
    requires Inv(s) && s.rx.pc == Pass(k) && k > 0 && i < s.n && 0 < g <= |s.rings[i].queue|
    ensures Inv(s.(rings := s.rings[i := s.rings[i].(queue := s.rings[i].queue[g..])],
                   rx := Hand(s.word, s.rx, Tagged(s.rings[i].owner, s.rings[i].queue[..g]), k - 1)))
  {
    hide Count, From, Hand, Tagged, Swept, RxOk, Known;
    var q := s.rings[i].queue;
    var moved := Tagged(s.rings[i].owner, q[..g]);
    var t := s.(rings := s.rings[i := s.rings[i].(queue := q[g..])], rx := Hand(s.word, s.rx, moved, k - 1));
    HandRx(s, t, moved, k);
    assert RingOk(s, i);
    KnownTagged(s.rx.out + s.rx.staging, s.rings[i].owner, q[..g], |s.producers|);
    forall j | 0 <= j < t.n ensures RingOk(t, j) { assert RingOk(s, j); }
    forall c | 0 <= c < |t.claimers| ensures ClaimOk(t, c) { assert ClaimOk(s, c); }
    forall p | 0 <= p < |t.producers| ensures ProdOk(t, p) && Kept(t, p) {
      assert ProdOk(s, p) && Kept(s, p);
      DrainKept(s, t, i, g, p);
    }
  }

  lemma PassKeeps<V>(s: State<V>, k: nat, j: nat)
    requires Inv(s) && s.rx.pc == Pass(k)
    ensures Inv(PassStep(s, k, j))
  {
    var x := s.rx;
    if k == 0 || (x.kind.Many? && x.pushed >= x.kind.max) {
      hide Known, From, Counts, RingOk;
      QuietKeeps(s, EndPass(x));
    } else {
      var i := x.cursor % s.n;
      var g := Amount(|s.rings[i].queue|, Limit(x), j);
      assert Limit(x) > 0;
      if g > 0 {
        hide Inv, Hand;
        DrainKeeps(s, k, i, g);
      } else {
        var y := x.(pc := Check(k - 1, i));
        var t := s.(rx := y);
        assert x.last ==> Swept(t, s.n - k + 1) by {
          if x.last {
            forall u | 0 <= u < s.n - k + 1 ensures s.rings[Visit(x.start, u, s.n, s.word)].queue == [] {
              if u == s.n - k { assert Visit(x.start, u, s.n, s.word) == i; }
            }
          }
        }
        hide Known, From, Counts, RingOk, Swept;
        QuietKeeps(s, y);
      }
    }
  }

  lemma GoKeeps<V>(s: State<V>, j: nat)
    requires Inv(s)
    ensures Inv(GoStep(s, j))
  {
    match s.rx.pc
    case Entry => EntryKeeps(s);
    case Pass(k) => PassKeeps(s, k, j);
    case Check(k, i) => CheckKeeps(s, k, i);
    case WriteSlot(k, i) => WriteKeeps(s, k, i);
    case SetBit(k, i) => SetBitKeeps(s, k, i);
    case CheckLive =>
      hide Known, From, Counts, RingOk, Swept;
      QuietKeeps(s, GoStep(s, j).rx);
    case _ =>
  }

  // ---- senders --------------------------------------------------------------------------------------

  /** While a sender is live there is no last sweep to disturb. */
  lemma RxGrows<V>(s: State<V>, t: State<V>)
    requires WellFormed(s) && WellFormed(t) && RxOk(s) && t.rx == s.rx && s.live != 0 && t.n == s.n && t.word == s.word
    requires s.rx.pc.WriteSlot? ==> t.at[s.rx.pc.i].Reset?
    requires s.rx.pc.SetBit? ==> t.at[s.rx.pc.i].Written?
    ensures RxOk(t)
  {
  }

  lemma LiveUpdate<V>(s: State<V>, p: nat, x: Producer<V>)
    requires p < |s.producers|
    ensures Count(LiveFlags(s.producers[p := x]))
      == Count(LiveFlags(s.producers)) + (if x.stage.Released? then 0 else 1) - (if s.producers[p].stage.Released? then 0 else 1)
  {
    CountUpdate(LiveFlags(s.producers), p, !x.stage.Released?);
    assert LiveFlags(s.producers[p := x]) == LiveFlags(s.producers)[p := !x.stage.Released?];
  }

  lemma SomebodyLive<V>(s: State<V>)
    requires Counts(s)
    requires (exists p :: 0 <= p < |s.producers| && !s.producers[p].stage.Released?) || (exists h :: 0 <= h < |s.handles| && s.handles[h])
    ensures s.live > 0
  {
    CountExtremes(s.handles);
    CountExtremes(LiveFlags(s.producers));
    if s.live == 0 {
      forall p | 0 <= p < |s.producers| ensures s.producers[p].stage.Released? { assert !LiveFlags(s.producers)[p]; }
      assert false;
    }
  }

  /** Producer p changes itself, its ring and who holds that ring's sender. */
  lemma OwnKeeps<V>(s: State<V>, t: State<V>, p: nat, y: Producer<V>, ring: Ring<V>, place: Place)
    requires Inv(s) && p < |s.producers| && y.ring == s.producers[p].ring < s.n && !s.producers[p].stage.Released?
    requires t == s.(producers := s.producers[p := y], rings := s.rings[y.ring := ring], at := s.at[y.ring := place], live := t.live)
    requires t.live == s.live - (if y.stage.Released? then 1 else 0)
    requires ring.hasOwner == s.rings[y.ring].hasOwner && ring.owner == s.rings[y.ring].owner
    requires ((s.at[y.ring].With? || s.at[y.ring].TxGone?) && s.at[y.ring].p == p) || (ring == s.rings[y.ring] && place == s.at[y.ring])
    requires RingOk(t, y.ring) && ProdOk(t, p) && Kept(t, p)
    ensures Inv(t)
  {
    SomebodyLive(s);
    LiveUpdate(s, p, y);
    hide Count, From, Known, LiveFlags, Swept, Kept;
    assert RingOk(s, y.ring);
    RxGrows(s, t);
    hide RxOk;
    hide ClaimOk, ProdOk, Counts;
    forall j | 0 <= j < t.n ensures RingOk(t, j) { if j != y.ring { OtherRings(s, t, p, y, j); } }
    OtherHolders(s, t, p, y);
    hide RingOk;
    forall q | 0 <= q < |t.producers| ensures ProdOk(t, q) && Kept(t, q) {
      if q != p { OthersKept(s, t, p, y, ring, q); }
    }
  }

  lemma OtherRings<V>(s: State<V>, t: State<V>, p: nat, y: Producer<V>, j: nat)
    requires WellFormed(s) && WellFormed(t) && t.n == s.n && p < |s.producers| && y.ring == s.producers[p].ring < s.n && j < s.n && j != y.ring && RingOk(s, j)
    requires t == s.(producers := s.producers[p := y], rings := s.rings[y.ring := t.rings[y.ring]], at := s.at[y.ring := t.at[y.ring]], live := t.live)
    ensures RingOk(t, j)
  {
  }

  lemma OtherHolders<V>(s: State<V>, t: State<V>, p: nat, y: Producer<V>)
    requires Inv(s) && WellFormed(t) && t.n == s.n && p < |s.producers| && y.ring == s.producers[p].ring < s.n
    requires t == s.(producers := s.producers[p := y], rings := t.rings, at := s.at[y.ring := t.at[y.ring]], live := t.live)
    requires ((s.at[y.ring].With? || s.at[y.ring].TxGone?) && s.at[y.ring].p == p) || t.at[y.ring] == s.at[y.ring]
    requires ProdOk(t, p)
    ensures forall c :: 0 <= c < |t.claimers| ==> ClaimOk(t, c)
    ensures forall q :: 0 <= q < |t.producers| ==> ProdOk(t, q)
  {
    hide RingOk, Kept, RxOk, Counts, Known;
    forall c | 0 <= c < |t.claimers| ensures ClaimOk(t, c) { assert ClaimOk(s, c); }
    forall q | 0 <= q < |t.producers| ensures ProdOk(t, q) { assert ProdOk(s, q); }
  }

  lemma OthersKept<V>(s: State<V>, t: State<V>, p: nat, y: Producer<V>, ring: Ring<V>, q: nat)
    requires p < |s.producers| && q < |s.producers| && q != p && y.ring < |s.rings| && Kept(s, q)
    requires t.producers == s.producers[p := y] && t.rings == s.rings[y.ring := ring] && t.rx == s.rx
    requires ring.hasOwner == s.rings[y.ring].hasOwner && ring.owner == s.rings[y.ring].owner
    requires (ring.hasOwner && ring.owner == p) || ring == s.rings[y.ring]
    ensures Kept(t, q)
  {
    hide From;
    assert Rest(t, q) == Rest(s, q);
  }

  lemma SendKeeps<V>(s: State<V>, p: nat, v: V)
    requires Inv(s) && p < |s.producers|
    ensures Inv(ProducerStep(s, Send(p, v)))
  {
    var t := ProducerStep(s, Send(p, v));
    var x := s.producers[p];
    assert ProdOk(s, p) && Kept(s, p) && RingOk(s, x.ring);
    hide Count, From, Known, Swept, RxOk, Counts, ClaimOk;
    if x.stage.Live? && |s.rings[x.ring].queue| < s.cap {
      assert Rest(t, p) == Rest(s, p) + [v];
      assert s.at == s.at[x.ring := s.at[x.ring]];
      OwnKeeps(s, t, p, t.producers[p], t.rings[x.ring], s.at[x.ring]);
    }
  }

  lemma DropKeeps<V>(s: State<V>, e: Event<V>)
    requires Inv(s) && (e.DropTx? || e.DropArc? || e.ReleaseLive?) && e.p < |s.producers|
    ensures Inv(ProducerStep(s, e))
  {
    var t := ProducerStep(s, e);
    var p := e.p;
    var x := s.producers[p];
    assert ProdOk(s, p) && Kept(s, p) && RingOk(s, x.ring);
    hide Count, From, Known, Swept, RxOk, Counts, ClaimOk;
    if (e.DropTx? && x.stage.Live?) || (e.DropArc? && x.stage.FlagSet?) || (e.ReleaseLive? && x.stage.ArcGone?) {
      assert Rest(t, p) == Rest(s, p);
      assert s.at == s.at[x.ring := s.at[x.ring]] && s.rings == s.rings[x.ring := s.rings[x.ring]];
      OwnKeeps(s, t, p, t.producers[p], t.rings[x.ring], t.at[x.ring]);
    }
  }

  // ---- claiming ---------------------------------------------------------------------------------------

  /** A claimer moves on, perhaps taking over ring i's sender from the bitmap or the slot. */
  lemma ClaimerKeeps<V>(s: State<V>, t: State<V>, c: nat, pc: ClaimPc)
    requires Inv(s) && c < |s.claimers| && !s.claimers[c].pc.Answered?
    requires t == SetClaimer(s, c, pc).(free := t.free, slots := t.slots, at := t.at) && WellFormed(t)
    requires forall j :: 0 <= j < s.n ==> RingOk(t, j)
    requires forall j :: 0 <= j < s.n ==> t.at[j] == s.at[j] || ((t.at[j].Reserved? || t.at[j].Holding?) && (s.at[j].Free? || s.at[j] == Reserved(c)))
    requires ClaimOk(t, c)
    ensures Inv(t)
  {
    assert ClaimOk(s, c);
    SomebodyLive(s);
    hide Count, From, Known, LiveFlags, Swept, RingOk;
    RxGrows(s, t);
    hide RxOk;
    forall d | 0 <= d < |t.claimers| ensures ClaimOk(t, d) { if d != c { assert ClaimOk(s, d); } }
    hide ClaimOk;
    forall q | 0 <= q < |t.producers| ensures ProdOk(t, q) && Kept(t, q) { assert ProdOk(s, q) && Kept(s, q); assert Rest(t, q) == Rest(s, q); }
  }

  lemma TakeBitKeeps<V>(s: State<V>, c: nat, spurious: bool)
    requires Inv(s) && c < |s.claimers| && (s.claimers[c].pc.Load? || s.claimers[c].pc.Cas?)
    ensures Inv(ClaimStep(s, c, spurious))
  {
    hide Count, From, Known, Counts, RxOk, Swept, Kept, ProdOk;
    var t := ClaimStep(s, c, spurious);
    assert ClaimOk(s, c);
    forall j | 0 <= j < s.n ensures RingOk(t, j) { assert RingOk(s, j); }
    assert ClaimOk(t, c);
    if s.claimers[c].pc.Cas? && t.claimers[c].pc.TakeSlot? { assert RingOk(s, Lowest(s.free)); }
    hide RingOk, ClaimOk;
    ClaimerKeeps(s, t, c, t.claimers[c].pc);
  }

  /** A claimer with the bit always finds the sender. */
  lemma TakeSlotKeeps<V>(s: State<V>, c: nat, spurious: bool)
    requires Inv(s) && c < |s.claimers| && s.claimers[c].pc.TakeSlot?
    ensures Inv(ClaimStep(s, c, spurious))
  {
    var t := ClaimStep(s, c, spurious);
    var i := s.claimers[c].pc.i;
    assert ClaimOk(s, c) && RingOk(s, i);
    hide Count, From, Known, Counts, RxOk, Swept, Kept, ProdOk;
    forall j | 0 <= j < s.n ensures RingOk(t, j) { assert RingOk(s, j); }
    assert ClaimOk(t, c);
    hide RingOk, ClaimOk;
    ClaimerKeeps(s, t, c, Hold(i));
  }

  lemma HoldCounts<V>(s: State<V>, x: Producer<V>)
    requires Counts(s) && !x.stage.Released?
    ensures Count(s.handles) + Count(LiveFlags(s.producers + [x])) == s.live + 1
  {
    CountAppend(LiveFlags(s.producers), true);
    assert LiveFlags(s.producers + [x]) == LiveFlags(s.producers) + [true];
  }

  lemma HoldKept<V>(s: State<V>, t: State<V>, i: nat)
    requires Inv(s) && i < s.n && s.at[i].Holding? && t.rx == s.rx
    requires t.producers == s.producers + [Producer(i, Live, [])]
    requires t.rings == s.rings[i := s.rings[i].(hasOwner := true, owner := |s.producers|)]
    ensures Known(t.rx.out + t.rx.staging, |t.producers|) && forall q :: 0 <= q < |t.producers| ==> Kept(t, q)
  {
    FromUnknown(s.rx.out + s.rx.staging, |s.producers|, |s.producers|);
    assert RingOk(s, i);
    hide From, RxOk, Swept, Counts, ClaimOk;
    forall q | 0 <= q < |t.producers| ensures Kept(t, q) {
      if q < |s.producers| { assert Kept(s, q); assert Rest(t, q) == Rest(s, q); }
    }
  }

  lemma HoldKeeps<V>(s: State<V>, c: nat, spurious: bool)
    requires Inv(s) && c < |s.claimers| && s.claimers[c].pc.Hold?
    ensures Inv(ClaimStep(s, c, spurious))
  {
    hide Count, From, Known, LiveFlags, Swept, Kept;
    var t := ClaimStep(s, c, spurious);
    var i := s.claimers[c].pc.i;
    var p := |s.producers|;
    assert ClaimOk(s, c) && RingOk(s, i);
    SomebodyLive(s);
    HoldCounts(s, Producer(i, Live, []));
    HoldKept(s, t, i);
    RxGrows(s, t);
    hide RxOk;
    assert t.at == s.at[i := With(p)] && t.producers == s.producers + [Producer(i, Live, [])];
    forall j | 0 <= j < t.n ensures RingOk(t, j) { assert RingOk(s, j); }
    forall d | 0 <= d < |t.claimers| ensures ClaimOk(t, d) { assert ClaimOk(s, d); }
    hide RingOk, ClaimOk;
    forall q | 0 <= q < |t.producers| ensures ProdOk(t, q) { if q < p { assert ProdOk(s, q); } }
  }

  lemma HandleCounts<V>(s: State<V>, e: Event<V>)
    requires WellFormed(s) && Counts(s) && (e.CloneHandle? || e.DropHandle? || e.StartClaim?)
    ensures Counts(HandleStep(s, e))
  {
    hide Count, LiveFlags;
    CountAppend(s.handles, true);
    if e.h < |s.handles| { CountUpdate(s.handles, e.h, false); }
  }

  lemma HandleKeeps<V>(s: State<V>, e: Event<V>)
    requires Inv(s) && (e.CloneHandle? || e.DropHandle? || e.StartClaim?)
    ensures Inv(HandleStep(s, e))
  {
    hide Counts, From, Known, Swept, Kept;
    var t := HandleStep(s, e);
    if e.h < |s.handles| && s.handles[e.h] {
      SomebodyLive(s);
      HandleCounts(s, e);
      RxGrows(s, t);
      hide RxOk;
      forall j | 0 <= j < t.n ensures RingOk(t, j) { assert RingOk(s, j); }
      hide RingOk;
      forall d | 0 <= d < |t.claimers| ensures ClaimOk(t, d) { if d < |s.claimers| { assert ClaimOk(s, d); } }
      hide ClaimOk;
      forall q | 0 <= q < |t.producers| ensures ProdOk(t, q) && Kept(t, q) { assert ProdOk(s, q) && Kept(s, q); SameKept(s, t, q); }
    }
  }

  lemma SameKept<V>(s: State<V>, t: State<V>, q: nat)
    requires q < |s.producers| && Kept(s, q) && t.producers == s.producers && t.rings == s.rings && t.rx == s.rx
    ensures Kept(t, q)
  {
    hide From;
    assert Rest(t, q) == Rest(s, q);
  }

  // ---- every run ----------------------------------------------------------------------------------------

  lemma StepKeeps<V>(s: State<V>, e: Event<V>)
    requires Inv(s)
    ensures Inv(Step(s, e))
  {
    match e
    case Claim(c, spurious) =>
      if c < |s.claimers| {
        if s.claimers[c].pc.Load? || s.claimers[c].pc.Cas? { TakeBitKeeps(s, c, spurious); }
        else if s.claimers[c].pc.TakeSlot? { TakeSlotKeeps(s, c, spurious); }
        else if s.claimers[c].pc.Hold? { HoldKeeps(s, c, spurious); }
      }
    case Go(j) => GoKeeps(s, j);
    case SetBatch(_) =>
      hide Known, From, Counts, RingOk, Swept;
      if Resting(s.rx.pc) { QuietKeeps(s, Step(s, e).rx); }
    case Call(_) =>
      hide Known, From, Counts, RingOk, Swept;
      if Resting(s.rx.pc) { QuietKeeps(s, Step(s, e).rx); }
    case CloneHandle(_) => HandleKeeps(s, e);
    case DropHandle(_) => HandleKeeps(s, e);
    case StartClaim(_) => HandleKeeps(s, e);
    case Send(p, v) => if p < |s.producers| { SendKeeps(s, p, v); }
    case _ => if e.p < |s.producers| { DropKeeps(s, e); }
  }

  lemma {:induction false} RunInv<V>(n: nat, cap: nat, word: nat, es: seq<Event<V>>)
    requires 0 < n < word
    ensures Inv(Run(n, cap, word, es))
  {
    if es == [] {
      assert Count([true]) == 1 by { assert [true][..0] == []; }
      assert LiveFlags<V>([]) == [];
    } else {
      RunInv(n, cap, word, es[..|es| - 1]);
      StepKeeps(Run(n, cap, word, es[..|es| - 1]), es[|es| - 1]);
    }
  }

  // ---- theorems -------------------------------------------------------------------------------------------

  /** A set bit always means its slot holds a sender, so `claim` never meets an empty slot; a reset never meets an
      occupied slot or a set bit. */
  lemma BitMeansSender<V>(n: nat, cap: nat, word: nat, es: seq<Event<V>>)
    requires 0 < n < word
    ensures var s := Run(n, cap, word, es); !s.fault && forall i :: 0 <= i < n && s.free[i] ==> s.slots[i]
  {
    RunInv(n, cap, word, es);
    var s := Run(n, cap, word, es);
    forall i | 0 <= i < n && s.free[i] ensures s.slots[i] { assert RingOk(s, i); }
  }

  datatype Holder = Slot | Claimant(c: nat) | Sender(p: nat) | Resetter

  /** `w` has a sender of ring `i` in its hands. */
  predicate HasSender<V>(s: State<V>, w: Holder, i: nat) {
    match w
    case Slot => i < |s.slots| && s.slots[i]
    case Claimant(c) => c < |s.claimers| && s.claimers[c].pc == Hold(i)
    case Sender(p) => p < |s.producers| && s.producers[p].ring == i && (s.producers[p].stage.Live? || s.producers[p].stage.FlagSet?)
    case Resetter => s.rx.pc.WriteSlot? && s.rx.pc.i == i
  }

  /** A ring never has two senders. */
  lemma OneSender<V>(n: nat, cap: nat, word: nat, es: seq<Event<V>>, i: nat, w: Holder, v: Holder)
    requires 0 < n < word && i < n && HasSender(Run(n, cap, word, es), w, i) && HasSender(Run(n, cap, word, es), v, i)
    ensures w == v
  {
    RunInv(n, cap, word, es);
    var s := Run(n, cap, word, es);
    hide Run;
    assert RingOk(s, i);
    if w.Claimant? { assert ClaimOk(s, w.c); }
    if v.Claimant? { assert ClaimOk(s, v.c); }
    if w.Sender? { assert ProdOk(s, w.p); }
    if v.Sender? { assert ProdOk(s, v.p); }
  }

  /** Values never cross from one producer of a ring to the next: per-producer order, exactly once. */
  lemma EpochsApart<V>(n: nat, cap: nat, word: nat, es: seq<Event<V>>, p: nat)
    requires 0 < n < word && p < |Run(n, cap, word, es).producers|
    ensures var s := Run(n, cap, word, es); From(s.rx.out, p) + From(s.rx.staging, p) + Rest(s, p) == s.producers[p].sent
    ensures var s := Run(n, cap, word, es); forall i :: 0 <= i < n && (s.at[i].Reset? || s.slots[i]) ==> s.rings[i].queue == []
  {
    RunInv(n, cap, word, es);
    var s := Run(n, cap, word, es);
    assert Kept(s, p);
    FromConcat(s.rx.out, s.rx.staging, p);
    forall i | 0 <= i < n && (s.at[i].Reset? || s.slots[i]) ensures s.rings[i].queue == [] { assert RingOk(s, i); }
  }

  /** `recv` returns None only with no sender live; and unless the cursor wrapped inside its last sweep, only when everything
      sent was handed over. */
  lemma EndMeansAll<V>(n: nat, cap: nat, word: nat, es: seq<Event<V>>)
    requires 0 < n < word && Run(n, cap, word, es).rx.pc.Finished?
    ensures var s := Run(n, cap, word, es); s.live == 0 && s.rx.staging == [] && s.rx.start < word
    ensures var s := Run(n, cap, word, es); word % n == 0 || s.rx.start + n <= word ==>
      forall p :: 0 <= p < |s.producers| ==> From(s.rx.out, p) == s.producers[p].sent
  {
    RunInv(n, cap, word, es);
    var s := Run(n, cap, word, es);
    hide Run;
    if word % n == 0 || s.rx.start + n <= word {
      SweepComplete(s.rx.start, n, word);
      forall p | 0 <= p < |s.producers| ensures From(s.rx.out, p) == s.producers[p].sent {
        assert Kept(s, p) && ProdOk(s, p);
        assert s.rx.out + s.rx.staging == s.rx.out;
        hide From;
        assert Visited(s.producers[p].ring, s.rx.start, n, word);
      }
    }
  }
}
