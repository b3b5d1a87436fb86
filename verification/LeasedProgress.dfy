/** Operations of the leased channel do their work: a reservation finds a block whenever there is one, a commit publishes, a
    returned block reaches its lane, reclaiming empties the lanes, and a flush ends. */
module LeasedProgress {
  import opened Wrappers
  import opened Tally
  import opened Custody
  import opened Leased
  import Scan

  /** Producer `p` takes `n` steps on its own. */
  function Alone(s: State, p: nat, n: nat): (t: State)
    requires p < |s.producers|
    ensures |t.producers| == |s.producers|
  {
    if n == 0 then s else GoStep(Alone(s, p, n - 1), p)
  }

  lemma {:induction false} AloneFirst(s: State, p: nat, n: nat)
    requires p < |s.producers| && n > 0
    ensures |GoStep(s, p).producers| == |s.producers| && Alone(s, p, n) == Alone(GoStep(s, p), p, n - 1)
  {
    hide GoStep;
    assert Alone(s, p, 1) == GoStep(s, p);
    if n > 1 { AloneFirst(s, p, n - 1); }
  }

  lemma {:induction false} AloneSplit(s: State, p: nat, a: nat, b: nat)
    requires p < |s.producers|
    ensures Alone(s, p, a + b) == Alone(Alone(s, p, a), p, b)
    decreases b
  {
    hide GoStep;
    if b > 0 { AloneSplit(s, p, a, b - 1); }
  }

  predicate AllEmpty(lanes: seq<seq<nat>>) { forall c :: 0 <= c < |lanes| ==> lanes[c] == [] }

  /** Lane `i` is the first with a block, in turn from `first` on. */
  predicate FirstFull(lanes: seq<seq<nat>>, first: nat, i: nat) {
    && i < |lanes| && lanes[i] != []
    && forall c :: 0 <= c < |lanes| && Scan.Place(first, c, |lanes|) < Scan.Place(first, i, |lanes|) ==> lanes[c] == []
  }

  // ---- one pass over the lanes ------------------------------------------------------------------

  /** Since `s` producer `p` has only moved its scan, and every lane it passed was empty. */
  ghost predicate Looking(s: State, u: State, p: nat, goal: Goal) {
    && p < |s.producers| == |u.producers| && u == SetProd(s, p, u.producers[p])
    && var (a, x) := (s.producers[p], u.producers[p]);
       var n := |a.lanes|;
       && x == a.(pc := x.pc, cursor := x.cursor) && n > 0
       && x.pc.Scanning? && x.pc.goal == goal && x.pc.first == Scan.Index(a.cursor, n) && x.pc.left <= n
       && (x.pc.left > 0 ==> Scan.Index(x.cursor, n) == Scan.Spot(x.pc.first, n - x.pc.left, n))
       && (forall c :: 0 <= c < n && Scan.Place(x.pc.first, c, n) < n - x.pc.left ==> a.lanes[c] == [])
  }

  /** The pass is over: it found nothing, or lane `i` first. */
  ghost predicate Looked(s: State, u: State, p: nat, goal: Goal, found: Option<nat>) {
    && p < |s.producers| == |u.producers| && u == SetProd(s, p, u.producers[p])
    && var (a, x) := (s.producers[p], u.producers[p]);
       match found
       case None => AllEmpty(a.lanes) && x == ScanOver(a.(cursor := x.cursor), goal)
       case Some(i) =>
         && FirstFull(a.lanes, Scan.Index(a.cursor, |a.lanes|), i)
         && var (b, lanes) := (a.lanes[i][0], a.lanes[i := a.lanes[i][1..]]);
            x == a.(cursor := i + 1, lanes := lanes, inFlight := a.inFlight - 1, pc := x.pc, lease := x.lease, free := x.free, at := x.at)
            && if goal.Reserving?
               then x.lease == Some(b) && x.free == a.free && x.pc == Writable && x.at == Moved(a, b, Writing).at
               else x.lease == a.lease && x.free == a.free + [b] && x.at == Moved(a, b, Free).at
                    && x.pc == Scanning(goal, |lanes|, Scan.Index(x.cursor, |lanes|))
  }

  lemma LookStep(s: State, u: State, p: nat, goal: Goal) returns (found: Option<nat>)
    requires Looking(s, u, p, goal)
    ensures var t := GoStep(u, p);
      (Looking(s, t, p, goal) && t.producers[p].pc.left < u.producers[p].pc.left) || Looked(s, t, p, goal, found)
  {
    var (a, x) := (s.producers[p], u.producers[p]);
    var n := |a.lanes|;
    var i := Scan.Index(x.cursor, n);
    found := None;
    if x.pc.left == 0 {
      forall c | 0 <= c < n ensures a.lanes[c] == [] { assert Scan.Place(x.pc.first, c, n) < n; }
    } else if x.lanes[i] != [] {
      found := Some(i);
      assert Scan.Place(x.pc.first, i, n) == n - x.pc.left;
    } else {
      forall c | 0 <= c < n && Scan.Place(x.pc.first, c, n) < n - x.pc.left + 1 ensures a.lanes[c] == [] {
        if Scan.Place(x.pc.first, c, n) == n - x.pc.left { assert c == i; }
      }
    }
  }

  lemma {:induction false} LookEnds(s: State, u: State, p: nat, goal: Goal) returns (n: nat, found: Option<nat>)
    requires Looking(s, u, p, goal)
    ensures n <= u.producers[p].pc.left + 1 && Looked(s, Alone(u, p, n), p, goal, found)
    decreases u.producers[p].pc.left
  {
    found := LookStep(s, u, p, goal);
    AloneFirst(u, p, 1);
    hide GoStep, Looked;
    var t := GoStep(u, p);
    assert Alone(t, p, 0) == t;
    if Looked(s, t, p, goal, found) {
      n := 1;
    } else {
      n, found := LookEnds(s, t, p, goal);
      n := n + 1;
      AloneFirst(u, p, n);
    }
  }

  // ---- reserving --------------------------------------------------------------------------------

  /** What a reservation leaves of producer `a`: a returned block first, the lane being the first in turn that has one; then the
      last free block; and nothing only if there is neither. */
  ghost predicate Reserved(a: Producer, x: Producer, blocking: bool) {
    if !AllEmpty(a.lanes) then
      exists i: nat :: FirstFull(a.lanes, Scan.Index(a.cursor, |a.lanes|), i) && x.pc == Writable && x.lease == Some(a.lanes[i][0])
        && x.lanes == a.lanes[i := a.lanes[i][1..]] && x.free == a.free && x.inFlight == a.inFlight - 1 && x.forward == a.forward
    else
      && x.lanes == a.lanes && x.inFlight == a.inFlight && x.forward == a.forward
      && if a.free != [] then x.pc == Writable && x.lease == Some(a.free[|a.free| - 1]) && x.free == a.free[..|a.free| - 1]
         else x.pc == (if blocking then CheckGone(true) else Idle) && x.lease == a.lease && x.free == a.free
  }

  lemma LookedReserved(s: State, u: State, p: nat, blocking: bool, found: Option<nat>)
    requires Looked(s, u, p, Reserving(blocking), found)
    ensures Reserved(s.producers[p], u.producers[p], blocking)
  {
    var a := s.producers[p];
    if found.Some? {
      assert FirstFull(a.lanes, Scan.Index(a.cursor, |a.lanes|), found.value);
      assert a.lanes[found.value] != [];
    }
  }

  lemma StartLooks(s: State, p: nat, x: Producer, goal: Goal)
    requires p < |s.producers| && s.producers[p].lanes != [] && x == s.producers[p].(pc := x.pc)
    ensures Looking(s, SetProd(s, p, StartScan(s, x, goal)), p, goal)
  {
  }

  lemma CheckLooks(s: State, p: nat, e: Event)
    requires p < |s.producers| && s.producers[p].lanes != [] && Resting(s.producers[p].pc)
    requires e == TryReserve(p) || e == Reserve(p)
    ensures var t := ProducerStep(s, p, e);
      && |t.producers| == |s.producers|
      && var u := GoStep(t, p);
         && |u.producers| == |s.producers|
         && if s.live == 0 then u.producers[p] == s.producers[p].(pc := Idle)
            else Looking(s, u, p, Reserving(e.Reserve?)) && u.producers[p].pc.left == |s.producers[p].lanes|
  {
    var t := ProducerStep(s, p, e);
    if s.live != 0 { StartLooks(s, p, t.producers[p], Reserving(e.Reserve?)); }
  }

  /** A call to reserve, made by a resting producer and left alone. */
  lemma ReserveAlone(s: State, p: nat, e: Event) returns (n: nat)
    requires p < |s.producers| && s.producers[p].lanes != [] && Resting(s.producers[p].pc)
    requires e == TryReserve(p) || e == Reserve(p)
    ensures n <= |s.producers[p].lanes| + 2
    ensures var t := ProducerStep(s, p, e);
      && |t.producers| == |s.producers|
      && var (a, x) := (s.producers[p], Alone(t, p, n).producers[p]);
         if s.live == 0 then x == a.(pc := Idle) else Reserved(a, x, e.Reserve?)
  {
    hide GoStep, ProducerStep, Looked, Reserved;
    CheckLooks(s, p, e);
    var t := ProducerStep(s, p, e);
    var u := GoStep(t, p);
    AloneFirst(t, p, 1);
    assert Alone(u, p, 0) == u;
    if s.live == 0 { return 1; }
    var found;
    n, found := LookEnds(s, u, p, Reserving(e.Reserve?));
    LookedReserved(s, Alone(u, p, n), p, e.Reserve?, found);
    n := n + 1;
    AloneFirst(t, p, n);
  }

  // ---- reclaiming and flushing --------------------------------------------------------------------

  lemma {:induction false} AloneInv(s: State, p: nat, n: nat)
    requires Inv(s) && p < |s.producers|
    ensures Inv(Alone(s, p, n))
  {
    hide Inv, GoStep;
    if n > 0 {
      AloneInv(s, p, n - 1);
      StepKeeps(Alone(s, p, n - 1), Go(p));
    }
  }

  /** Blocks have only come home from lanes. */
  ghost predicate Homeward(a: Producer, x: Producer) {
    && |x.at| == |a.at| && x.forward == a.forward && x.lease == a.lease && a.free <= x.free
    && forall b :: 0 <= b < |a.at| ==> x.at[b] == a.at[b] || (a.at[b].Lane? && x.at[b] == Free)
  }

  /** Exactly the blocks in lanes have come home. */
  ghost predicate Tidied(a: Producer, x: Producer) {
    && AllEmpty(x.lanes) && |x.at| == |a.at| && x.forward == a.forward && x.lease == a.lease && a.free <= x.free
    && forall b :: 0 <= b < |a.at| ==> x.at[b] == if a.at[b].Lane? then Free else a.at[b]
  }

  lemma LaneEmptied(s: State, p: nat, a: Producer)
    requires Inv(s) && p < |s.producers| && AllEmpty(s.producers[p].lanes) && Homeward(a, s.producers[p])
    ensures Tidied(a, s.producers[p])
  {
    var x := s.producers[p];
    assert ProdOk(s, p, x);
    forall b | 0 <= b < |x.at| ensures !x.at[b].Lane? {
      assert x.at[b].Lane? ==> Box(x.lanes[x.at[b].c], x.at, x.at[b]);
    }
  }

  lemma LaneFirst(s: State, p: nat, i: nat)
    requires Inv(s) && p < |s.producers| && i < |s.producers[p].lanes| && s.producers[p].lanes[i] != []
    ensures var x := s.producers[p]; x.lanes[i][0] < |x.at| && x.at[x.lanes[i][0]] == Lane(i)
  {
    var x := s.producers[p];
    assert ProdOk(s, p, x);
    assert Box(x.lanes[i], x.at, Lane(i));
  }

  lemma FlightCount(s: State, p: nat)
    requires Inv(s) && p < |s.producers|
    requires var pc := s.producers[p].pc; !pc.Dropped? && !pc.Account?
    ensures |s.producers[p].lanes| > 0 && s.producers[p].inFlight >= 0
    ensures s.producers[p].inFlight == 0 <==> forall b :: 0 <= b < |s.producers[p].at| ==> !Out(s.producers[p].at[b])
  {
    hide Boxes, Readers, Pcs, Count;
    var x := s.producers[p];
    assert ProdOk(s, p, x);
    CountExtremes(OutFlags(x.at));
    assert forall b :: 0 <= b < |x.at| ==> OutFlags(x.at)[b] == Out(x.at[b]);
  }

  /** Where the pass that empties the lanes leads. */
  function Next(goal: Goal, inFlight: int): Pc {
    if goal.Flushing? then (if inFlight == 0 then Flushed(true) else FlushLook)
    else if goal.LastFlush? then Flushed(inFlight == 0)
    else Idle
  }

  predicate Started(x: Producer, goal: Goal) { x.pc == Scanning(goal, |x.lanes|, Scan.Index(x.cursor, |x.lanes|)) }

  lemma LookedHome(s: State, u: State, p: nat, goal: Goal, found: Option<nat>)
    requires Inv(s) && Looked(s, u, p, goal, found) && !goal.Reserving? && Started(s.producers[p], goal)
    ensures p < |s.producers| == |u.producers| && u == SetProd(s, p, u.producers[p])
    ensures var (a, x) := (s.producers[p], u.producers[p]);
      && Homeward(a, x)
      && if found.Some? then Started(x, goal) && x.inFlight == a.inFlight - 1 else AllEmpty(x.lanes) && x.pc == Next(goal, x.inFlight)
  {
    if found.Some? {
      LaneFirst(s, p, found.value);
      hide Inv;
    }
  }

  lemma HomeTidied(a: Producer, b: Producer, c: Producer)
    requires Homeward(a, b) && Tidied(b, c)
    ensures Tidied(a, c)
  {
  }

  /** Passes go on until the lanes are empty. */
  lemma {:induction false} ClearEnds(s: State, p: nat, goal: Goal) returns (n: nat)
    requires Inv(s) && p < |s.producers| && !goal.Reserving? && Started(s.producers[p], goal)
    ensures var u := Alone(s, p, n);
      && Inv(u) && u == SetProd(s, p, u.producers[p])
      && var x := u.producers[p]; Tidied(s.producers[p], x) && x.pc == Next(goal, x.inFlight)
    decreases s.producers[p].inFlight
  {
    hide Inv, GoStep, Looked, Looking, Tidied, Homeward, Next, AllEmpty;
    var a := s.producers[p];
    FlightCount(s, p);
    StartLooks(s, p, a, goal);
    assert SetProd(s, p, StartScan(s, a, goal)) == s;
    var found;
    n, found := LookEnds(s, s, p, goal);
    var u := Alone(s, p, n);
    AloneInv(s, p, n);
    LookedHome(s, u, p, goal, found);
    if found.Some? {
      FlightCount(u, p);
      var m := ClearEnds(u, p, goal);
      AloneSplit(s, p, n, m);
      n := n + m;
      HomeTidied(a, u.producers[p], Alone(s, p, n).producers[p]);
    } else {
      LaneEmptied(u, p, a);
    }
  }

  /** No block is in the forward ring or with a consumer. */
  ghost predicate Home(x: Producer) { forall b :: 0 <= b < |x.at| ==> !x.at[b].Forward? && !x.at[b].Reading? }

  lemma TidiedFlight(s: State, p: nat, a: Producer)
    requires Inv(s) && p < |s.producers| && Tidied(a, s.producers[p]) && !s.producers[p].pc.Dropped? && !s.producers[p].pc.Account?
    ensures s.producers[p].inFlight == 0 <==> Home(a)
  {
    FlightCount(s, p);
    hide Inv, AllEmpty;
    var x := s.producers[p];
    assert forall b :: 0 <= b < |a.at| ==> (Out(x.at[b]) <==> a.at[b].Forward? || a.at[b].Reading?);
  }

  lemma TidiedTwice(a: Producer, b: Producer, c: Producer)
    requires Tidied(a, b) && Tidied(b, c)
    ensures Tidied(a, c)
  {
  }

  /** The second look of a flush, once no consumer is left. */
  lemma LastLook(s: State, p: nat) returns (n: nat)
    requires Inv(s) && p < |s.producers| && s.producers[p].pc.FlushLook? && s.live == 0
    ensures var u := Alone(s, p, n);
      Inv(u) && Tidied(s.producers[p], u.producers[p]) && u.producers[p].pc == Flushed(u.producers[p].inFlight == 0)
  {
    var t := GoStep(s, p);
    assert t == SetProd(s, p, StartScan(s, s.producers[p], LastFlush));
    AloneInv(s, p, 1);
    AloneFirst(s, p, 1);
    assert Alone(t, p, 0) == t;
    hide Inv, GoStep, Tidied;
    n := ClearEnds(t, p, LastFlush);
    SameTidied(s.producers[p], t.producers[p], Alone(t, p, n).producers[p]);
    n := n + 1;
    AloneFirst(s, p, n);
  }

  lemma SameTidied(a: Producer, b: Producer, c: Producer)
    requires b == a.(pc := b.pc) && Tidied(b, c)
    ensures Tidied(a, c)
  {
  }

  lemma StartKeeps(s: State, p: nat, e: Event)
    requires Inv(s) && p < |s.producers| && Resting(s.producers[p].pc) && (e == Reclaim(p) || e == Flush(p))
    ensures var t := ProducerStep(s, p, e);
      Inv(t) && t == SetProd(s, p, StartScan(s, s.producers[p], if e.Flush? then Flushing else Reclaiming))
  {
    hide Inv;
    StepKeeps(s, e);
  }

  /** A flush, made by a resting producer and left alone: true if nothing is with the consumers, false if something is and no
      consumer is left, and otherwise it goes on waiting with the lanes emptied. */
  lemma FlushAlone(s: State, p: nat) returns (n: nat)
    requires Inv(s) && p < |s.producers| && Resting(s.producers[p].pc)
    ensures var t := ProducerStep(s, p, Flush(p));
      && |t.producers| == |s.producers|
      && var (a, x) := (s.producers[p], Alone(t, p, n).producers[p]);
         Tidied(a, x) && x.pc == if Home(a) then Flushed(true) else if s.live == 0 then Flushed(false) else FlushLook
  {
    hide Inv, GoStep, Tidied, ProducerStep, Home;
    StartKeeps(s, p, Flush(p));
    var t := ProducerStep(s, p, Flush(p));
    var a := s.producers[p];
    n := ClearEnds(t, p, Flushing);
    var u := Alone(t, p, n);
    SameTidied(a, t.producers[p], u.producers[p]);
    TidiedFlight(u, p, a);
    if u.producers[p].inFlight != 0 && s.live == 0 {
      var m := LastLook(u, p);
      AloneSplit(t, p, n, m);
      n := n + m;
      TidiedTwice(a, u.producers[p], Alone(t, p, n).producers[p]);
      TidiedFlight(Alone(t, p, n), p, a);
    }
  }

  /** Reclaiming brings home exactly the blocks in the lanes. */
  lemma ReclaimAlone(s: State, p: nat) returns (n: nat)
    requires Inv(s) && p < |s.producers| && Resting(s.producers[p].pc)
    ensures var t := ProducerStep(s, p, Reclaim(p));
      |t.producers| == |s.producers| && Tidied(s.producers[p], Alone(t, p, n).producers[p]) && Alone(t, p, n).producers[p].pc.Idle?
  {
    hide Inv, GoStep, Tidied, ProducerStep;
    StartKeeps(s, p, Reclaim(p));
    var t := ProducerStep(s, p, Reclaim(p));
    n := ClearEnds(t, p, Reclaiming);
    SameTidied(s.producers[p], t.producers[p], Alone(t, p, n).producers[p]);
  }

  // ---- committing and returning -------------------------------------------------------------------

  lemma ForwardRoom(s: State, p: nat)
    requires Inv(s) && p < |s.producers| && s.producers[p].lease.Some?
    ensures |s.producers[p].forward| < s.slots
  {
    var x := s.producers[p];
    assert ProdOk(s, p, x);
    hide Readers, Flight, Pcs, Count;
    assert Box([x.lease.value], x.at, Writing);
    BoxRoom(x.forward, x.at, Forward, [x.lease.value][0]);
  }

  /** A commit publishes the block behind those published before, and refuses it only when no consumer is left. */
  lemma CommitAlone(s: State, p: nat, filled: nat)
    requires Inv(s) && p < |s.producers| && s.producers[p].pc.Writable? && filled > 0
    ensures var t := ProducerStep(s, p, Commit(p, filled));
      && |t.producers| == |s.producers| && s.producers[p].lease.Some?
      && var a := s.producers[p];
         if s.live == 0 then Alone(t, p, 1).producers[p] == a
         else var x := Alone(t, p, 3).producers[p];
           x.pc.Idle? && x.lease.None? && x.forward == a.forward + [a.lease.value] && x.inFlight == a.inFlight + 1
           && x.free == a.free && x.lanes == a.lanes
  {
    assert ProdOk(s, p, s.producers[p]);
    assert Pcs(s, s.producers[p]);
    ForwardRoom(s, p);
    hide Inv;
    var t := ProducerStep(s, p, Commit(p, filled));
    assert Alone(t, p, 1) == GoStep(t, p);
    assert Alone(t, p, 2) == GoStep(Alone(t, p, 1), p);
    assert Alone(t, p, 3) == GoStep(Alone(t, p, 2), p);
  }

  /** Dropping a read lease puts its block at the end of the consumer's lane to the block's own producer. */
  lemma ReturnAlone(s: State, c: nat)
    requires Inv(s) && c < |s.consumers| && s.consumers[c].lease.Some? && !s.consumers[c].pushing
    requires s.consumers[c].lease.value.p < |s.producers| && !s.producers[s.consumers[c].lease.value.p].pc.Dropped?
    ensures var t := Step(Step(s, Release(c)), GiveBack(c));
      var (p, b) := (s.consumers[c].lease.value.p, s.consumers[c].lease.value.b);
      && |t.producers| == |s.producers| && t.consumers == s.consumers[c := s.consumers[c].(lease := None)]
      && c < |s.producers[p].lanes| && t.producers[p].lanes == s.producers[p].lanes[c := s.producers[p].lanes[c] + [b]]
      && t.producers[p].forward == s.producers[p].forward
  {
    var p := s.consumers[c].lease.value.p;
    var x := s.producers[p];
    assert ProdOk(s, p, x);
    LaneRoom(s, c);
    hide Inv, Boxes, Readers, Flight, Pcs;
  }

  lemma TakeAlone(s: State, c: nat, p: nat)
    requires Inv(s) && c < |s.consumers| && s.consumers[c].alive && s.consumers[c].lease.None? && p < |s.producers| && s.producers[p].forward != []
    ensures var t := Step(s, Take(c, p));
      && |t.producers| == |s.producers| && !s.consumers[c].pushing
      && t.consumers == s.consumers[c := s.consumers[c].(lease := Some(Held(p, s.producers[p].forward[0])))]
      && t.producers[p].forward == s.producers[p].forward[1..] && t.producers[p].lanes == s.producers[p].lanes
      && t.producers[p].pc == s.producers[p].pc
  {
    assert ConsOk(s, s.consumers[c]);
    hide Inv;
  }

  lemma LaneRoom(s: State, c: nat)
    requires Inv(s) && c < |s.consumers| && s.consumers[c].lease.Some? && s.consumers[c].lease.value.p < |s.producers|
    ensures var x := s.producers[s.consumers[c].lease.value.p]; c < |x.lanes| && |x.lanes[c]| < s.slots
  {
    var (p, b) := (s.consumers[c].lease.value.p, s.consumers[c].lease.value.b);
    var x := s.producers[p];
    assert ProdOk(s, p, x);
    hide Flight, Pcs, Count;
    assert x.at[b] == Reading(c);
    BoxRoom(x.lanes[c], x.at, Lane(c), b);
  }

  // ---- every run ------------------------------------------------------------------------------------

  predicate Fits(plan: Plan, consumers: nat) { consumers > 0 && 0 < plan.blocks <= plan.slots }

  function Steps(p: nat, n: nat): (es: seq<Event>)
    ensures |es| == n
  {
    if n == 0 then [] else Steps(p, n - 1) + [Go(p)]
  }

  lemma RunNext(plan: Plan, producers: nat, consumers: nat, es: seq<Event>, e: Event)
    ensures Run(plan, producers, consumers, es + [e]) == Step(Run(plan, producers, consumers, es), e)
  {
    hide Step;
    assert (es + [e])[..|es|] == es;
  }

  lemma {:induction false} RunAlone(plan: Plan, producers: nat, consumers: nat, es: seq<Event>, p: nat, n: nat)
    requires p < |Run(plan, producers, consumers, es).producers|
    ensures Run(plan, producers, consumers, es + Steps(p, n)) == Alone(Run(plan, producers, consumers, es), p, n)
  {
    hide GoStep, Run;
    if n == 0 {
      assert es + [] == es;
    } else {
      RunAlone(plan, producers, consumers, es, p, n - 1);
      RunNext(plan, producers, consumers, es + Steps(p, n - 1), Go(p));
      assert es + Steps(p, n) == es + Steps(p, n - 1) + [Go(p)];
    }
  }

  /** In every run: a reservation left alone takes a returned block if a lane has one, else the last free block, and comes back
      with nothing exactly when no consumer is left or there is no block at all; the blocking form then looks again. */
  lemma Reservation(plan: Plan, producers: nat, consumers: nat, es: seq<Event>, p: nat, e: Event) returns (n: nat)
    requires Fits(plan, consumers) && (e == TryReserve(p) || e == Reserve(p))
    requires var s := Run(plan, producers, consumers, es); p < |s.producers| && Resting(s.producers[p].pc)
    ensures n <= |Run(plan, producers, consumers, es).producers[p].lanes| + 2
    ensures var (s, u) := (Run(plan, producers, consumers, es), Run(plan, producers, consumers, es + [e] + Steps(p, n)));
      && |u.producers| == |s.producers|
      && var (a, x) := (s.producers[p], u.producers[p]);
         && a.lease.None?
         && (x.pc.Writable? <==> x.lease.Some?)
         && (x.pc.Writable? <==> s.live != 0 && (!AllEmpty(a.lanes) || a.free != []))
         && if s.live == 0 then x == a.(pc := Idle) else Reserved(a, x, e.Reserve?)
  {
    hide Run, Boxes, Readers, Flight, GoStep, ConsOk, AliveFlags, Count, FirstFull;
    var s := Run(plan, producers, consumers, es);
    RunInv(plan, producers, consumers, es);
    assert ProdOk(s, p, s.producers[p]);
    hide Inv;
    RunNext(plan, producers, consumers, es, e);
    n := ReserveAlone(s, p, e);
    RunAlone(plan, producers, consumers, es + [e], p, n);
  }

  /** In every run: a committed block is published, in order, and is refused only once no consumer is left. */
  lemma CommitPublishes(plan: Plan, producers: nat, consumers: nat, es: seq<Event>, p: nat, filled: nat)
    requires Fits(plan, consumers) && filled > 0
    requires var s := Run(plan, producers, consumers, es); p < |s.producers| && s.producers[p].pc.Writable?
    ensures var s := Run(plan, producers, consumers, es); s.producers[p].lease.Some?
    ensures var (s, u) := (Run(plan, producers, consumers, es), Run(plan, producers, consumers, es + [Commit(p, filled)] + Steps(p, 3)));
      s.live != 0 ==>
        && |u.producers| == |s.producers| && u.producers[p].pc.Idle? && u.producers[p].lease.None?
        && u.producers[p].forward == s.producers[p].forward + [s.producers[p].lease.value]
    ensures var (s, u) := (Run(plan, producers, consumers, es), Run(plan, producers, consumers, es + [Commit(p, filled)] + Steps(p, 1)));
      s.live == 0 ==> |u.producers| == |s.producers| && u.producers[p] == s.producers[p]
  {
    hide Run, Inv, GoStep;
    var s := Run(plan, producers, consumers, es);
    RunInv(plan, producers, consumers, es);
    RunNext(plan, producers, consumers, es, Commit(p, filled));
    CommitAlone(s, p, filled);
    RunAlone(plan, producers, consumers, es + [Commit(p, filled)], p, 3);
    RunAlone(plan, producers, consumers, es + [Commit(p, filled)], p, 1);
  }

  /** In every run: a read lease let go of reaches the lane of its consumer to the producer that owns the block. */
  lemma ReturnArrives(plan: Plan, producers: nat, consumers: nat, es: seq<Event>, c: nat)
    requires Fits(plan, consumers)
    requires var s := Run(plan, producers, consumers, es);
      && c < |s.consumers| && s.consumers[c].lease.Some? && !s.consumers[c].pushing
      && (s.consumers[c].lease.value.p < |s.producers| ==> !s.producers[s.consumers[c].lease.value.p].pc.Dropped?)
    ensures var (s, t) := (Run(plan, producers, consumers, es), Run(plan, producers, consumers, es + [Release(c)] + [GiveBack(c)]));
      var (p, b) := (s.consumers[c].lease.value.p, s.consumers[c].lease.value.b);
      && p < |s.producers| == |t.producers| && |t.consumers| == |s.consumers| && t.consumers[c] == s.consumers[c].(lease := None)
      && c < |s.producers[p].lanes| && t.producers[p].lanes == s.producers[p].lanes[c := s.producers[p].lanes[c] + [b]]
  {
    var s := Run(plan, producers, consumers, es);
    RunInv(plan, producers, consumers, es);
    assert ConsOk(s, s.consumers[c]);
    hide Run, Inv, Step;
    RunNext(plan, producers, consumers, es, Release(c));
    RunNext(plan, producers, consumers, es + [Release(c)], GiveBack(c));
    ReturnAlone(s, c);
  }

  /** In every run: a consumer that takes a block of a live producer and lets go of it moves the oldest published block to its own
      lane, and is then as before. */
  lemma LentAndReturned(plan: Plan, producers: nat, consumers: nat, es: seq<Event>, c: nat, p: nat)
    requires Fits(plan, consumers)
    requires var s := Run(plan, producers, consumers, es);
      && c < |s.consumers| && s.consumers[c].alive && s.consumers[c].lease.None?
      && p < |s.producers| && s.producers[p].forward != [] && !s.producers[p].pc.Dropped?
    ensures var (s, t) := (Run(plan, producers, consumers, es), Run(plan, producers, consumers, es + [Take(c, p)] + [Release(c)] + [GiveBack(c)]));
      && |t.producers| == |s.producers| && t.consumers == s.consumers && c < |s.producers[p].lanes|
      && t.producers[p].forward == s.producers[p].forward[1..]
      && t.producers[p].lanes == s.producers[p].lanes[c := s.producers[p].lanes[c] + [s.producers[p].forward[0]]]
  {
    hide Run, Step, Inv;
    var s := Run(plan, producers, consumers, es);
    RunInv(plan, producers, consumers, es);
    RunInv(plan, producers, consumers, es + [Take(c, p)]);
    RunNext(plan, producers, consumers, es, Take(c, p));
    RunNext(plan, producers, consumers, es + [Take(c, p)], Release(c));
    RunNext(plan, producers, consumers, es + [Take(c, p)] + [Release(c)], GiveBack(c));
    TakeAlone(s, c, p);
    ReturnAlone(Step(s, Take(c, p)), c);
  }

  /** In every run: a flush left alone brings home exactly the blocks in the lanes. It returns true if no block is in the forward
      ring or with a consumer, false if one is and no consumer is left, and otherwise goes on waiting. */
  lemma FlushEnds(plan: Plan, producers: nat, consumers: nat, es: seq<Event>, p: nat) returns (n: nat)
    requires Fits(plan, consumers)
    requires var s := Run(plan, producers, consumers, es); p < |s.producers| && Resting(s.producers[p].pc)
    ensures var (s, u) := (Run(plan, producers, consumers, es), Run(plan, producers, consumers, es + [Flush(p)] + Steps(p, n)));
      && |u.producers| == |s.producers|
      && var (a, x) := (s.producers[p], u.producers[p]);
         Tidied(a, x) && x.pc == if Home(a) then Flushed(true) else if s.live == 0 then Flushed(false) else FlushLook
  {
    hide Run, Inv, GoStep, Tidied, Home;
    RunInv(plan, producers, consumers, es);
    RunNext(plan, producers, consumers, es, Flush(p));
    n := FlushAlone(Run(plan, producers, consumers, es), p);
    RunAlone(plan, producers, consumers, es + [Flush(p)], p, n);
  }

  /** In every run: reclaiming brings home exactly the blocks in the lanes. */
  lemma ReclaimEnds(plan: Plan, producers: nat, consumers: nat, es: seq<Event>, p: nat) returns (n: nat)
    requires Fits(plan, consumers)
    requires var s := Run(plan, producers, consumers, es); p < |s.producers| && Resting(s.producers[p].pc)
    ensures var (s, u) := (Run(plan, producers, consumers, es), Run(plan, producers, consumers, es + [Reclaim(p)] + Steps(p, n)));
      |u.producers| == |s.producers| && Tidied(s.producers[p], u.producers[p]) && u.producers[p].pc.Idle?
  {
    hide Run, Inv, GoStep, Tidied;
    RunInv(plan, producers, consumers, es);
    RunNext(plan, producers, consumers, es, Reclaim(p));
    n := ReclaimAlone(Run(plan, producers, consumers, es), p);
    RunAlone(plan, producers, consumers, es + [Reclaim(p)], p, n);
  }

  // ---- a reservation among everybody else's steps ------------------------------------------------------

  predicate Asking(pc: Pc) { pc == CheckGone(false) || (pc.Scanning? && pc.goal == Reserving(false)) }

  predicate EmptyThen(s: State, p: nat, c: nat) { p < |s.producers| && c < |s.producers[p].lanes| && s.producers[p].lanes[c] == [] }

  ghost predicate SeenEmpty(plan: Plan, producers: nat, consumers: nat, es: seq<Event>, more: seq<Event>, p: nat, c: nat) {
    exists j :: 0 <= j <= |more| && EmptyThen(Run(plan, producers, consumers, es + more[..j]), p, c)
  }

  ghost predicate SeenGone(plan: Plan, producers: nat, consumers: nat, es: seq<Event>, more: seq<Event>) {
    exists j :: 0 <= j <= |more| && Run(plan, producers, consumers, es + more[..j]).live == 0
  }

  lemma GoElsewhere(s: State, q: nat, p: nat)
    requires q < |s.producers| && p < |s.producers| && q != p
    ensures var t := GoStep(s, q); |t.producers| == |s.producers| && t.producers[p] == s.producers[p]
  {
  }

  /** Nobody else moves a call to reserve along. */
  lemma OthersLeave(s: State, p: nat, e: Event)
    requires p < |s.producers| && Asking(s.producers[p].pc) && e != Go(p)
    ensures var t := Step(s, e);
      && |t.producers| == |s.producers| && t.producers[p].pc == s.producers[p].pc && |t.producers[p].lanes| == |s.producers[p].lanes|
  {
    hide GoStep;
    if e.Go? && e.p < |s.producers| { GoElsewhere(s, e.p, p); }
  }

  /** A step of the call itself: it looks at one lane, or gives up with nothing in the free list, or nobody is there. */
  lemma OwnLooks(s: State, p: nat)
    requires Inv(s) && p < |s.producers| && Asking(s.producers[p].pc)
    ensures var t := Step(s, Go(p));
      && |t.producers| == |s.producers| && |t.producers[p].lanes| == |s.producers[p].lanes| && t.live == s.live
      && var (a, x) := (s.producers[p], t.producers[p]);
         match a.pc
         case CheckGone(_) => if s.live == 0 then x.pc.Idle? else x.pc.Scanning? && x.pc.goal == Reserving(false) && x.pc.left == |x.lanes| && x.pc.first < |x.lanes|
         case Scanning(_, left, first) =>
           if left == 0 then (x.pc.Writable? || (x.pc.Idle? && a.free == [] == x.free))
           else x.pc.Writable? || (x.pc == Scanning(Reserving(false), left - 1, first) && EmptyThen(s, p, Scan.Spot(first, |a.lanes| - left, |a.lanes|)))
         case _ => true
  {
    assert ProdOk(s, p, s.producers[p]);
    hide Inv, Boxes, Readers, Flight;
  }

  lemma SeenLater(plan: Plan, producers: nat, consumers: nat, es: seq<Event>, more: seq<Event>, e: Event, p: nat, c: nat)
    requires SeenEmpty(plan, producers, consumers, es, more, p, c)
    ensures SeenEmpty(plan, producers, consumers, es, more + [e], p, c)
  {
    hide Run, EmptyThen;
    var j :| 0 <= j <= |more| && EmptyThen(Run(plan, producers, consumers, es + more[..j]), p, c);
    assert (more + [e])[..j] == more[..j];
  }

  lemma SeenNow(plan: Plan, producers: nat, consumers: nat, es: seq<Event>, more: seq<Event>, e: Event, p: nat, c: nat)
    requires EmptyThen(Run(plan, producers, consumers, es + more), p, c)
    ensures SeenEmpty(plan, producers, consumers, es, more + [e], p, c)
  {
    hide Run, EmptyThen;
    assert (more + [e])[..|more|] == more;
  }

  /** So far the call has been at work, and every lane it passed was empty when looked at. */
  ghost predicate SoFar(plan: Plan, producers: nat, consumers: nat, es: seq<Event>, more: seq<Event>, p: nat) {
    var s := Run(plan, producers, consumers, es + more);
    p < |s.producers| && Asking(s.producers[p].pc) &&
    (s.producers[p].pc.Scanning? ==>
      forall c :: 0 <= c < |s.producers[p].lanes| && Scan.Place(s.producers[p].pc.first, c, |s.producers[p].lanes|) < |s.producers[p].lanes| - s.producers[p].pc.left ==>
        SeenEmpty(plan, producers, consumers, es, more, p, c))
  }

  /** One more event: the call is still at work, has its block, or came back empty-handed for one of the two reasons. */
  lemma SoFarStep(plan: Plan, producers: nat, consumers: nat, es: seq<Event>, more: seq<Event>, e: Event, p: nat)
    requires Fits(plan, consumers) && SoFar(plan, producers, consumers, es, more, p)
    ensures var (s, t) := (Run(plan, producers, consumers, es + more), Run(plan, producers, consumers, es + (more + [e])));
      && |t.producers| == |s.producers|
      && (SoFar(plan, producers, consumers, es, more + [e], p) || t.producers[p].pc.Writable?
          || (t.producers[p].pc.Idle? && (s.live == 0 || (t.producers[p].free == [] &&
                forall c :: 0 <= c < |t.producers[p].lanes| ==> SeenEmpty(plan, producers, consumers, es, more + [e], p, c)))))
  {
    hide Run, Step, SeenEmpty, EmptyThen, Boxes, Readers, Flight, ConsOk, AliveFlags, Count;
    var s := Run(plan, producers, consumers, es + more);
    RunInv(plan, producers, consumers, es + more);
    RunNext(plan, producers, consumers, es + more, e);
    assert es + more + [e] == es + (more + [e]);
    var (a, n) := (s.producers[p], |s.producers[p].lanes|);
    assert ProdOk(s, p, a);
    hide Inv;
    forall c | 0 <= c < n && SeenEmpty(plan, producers, consumers, es, more, p, c)
      ensures SeenEmpty(plan, producers, consumers, es, more + [e], p, c)
    {
      SeenLater(plan, producers, consumers, es, more, e, p, c);
    }
    if e != Go(p) {
      OthersLeave(s, p, e);
    } else {
      OwnLooks(s, p);
      if a.pc.Scanning? && a.pc.left == 0 {
        forall c | 0 <= c < n ensures SeenEmpty(plan, producers, consumers, es, more + [e], p, c) {
          assert Scan.Place(a.pc.first, c, n) < n;
        }
      }
      if a.pc.Scanning? && a.pc.left > 0 {
        var i := Scan.Spot(a.pc.first, n - a.pc.left, n);
        if EmptyThen(s, p, i) { SeenNow(plan, producers, consumers, es, more, e, p, i); }
        assert EmptyThen(s, p, i) ==> forall c :: 0 <= c < n && Scan.Place(a.pc.first, c, n) < n - a.pc.left + 1 ==>
          SeenEmpty(plan, producers, consumers, es, more + [e], p, c);
      }
    }
  }

  /** Among any steps of anybody, a call to `try_reserve` comes back with nothing only if no consumer was left at some point, or
      the free list is empty and every lane was empty when looked at. */
  lemma {:induction false} NoneOnlyFor(plan: Plan, producers: nat, consumers: nat, es: seq<Event>, more: seq<Event>, p: nat)
    requires Fits(plan, consumers)
    requires var s := Run(plan, producers, consumers, es); p < |s.producers| && s.producers[p].pc == CheckGone(false)
    requires forall k :: 0 <= k < |more| ==>
      var s := Run(plan, producers, consumers, es + more[..k]); p < |s.producers| && Asking(s.producers[p].pc)
    requires var s := Run(plan, producers, consumers, es + more); p < |s.producers| && !s.producers[p].pc.Writable?
    ensures var s := Run(plan, producers, consumers, es + more);
      Asking(s.producers[p].pc) || SeenGone(plan, producers, consumers, es, more)
      || (s.producers[p].free == [] && forall c :: 0 <= c < |s.producers[p].lanes| ==> SeenEmpty(plan, producers, consumers, es, more, p, c))
    ensures SoFar(plan, producers, consumers, es, more, p) || Run(plan, producers, consumers, es + more).producers[p].pc.Idle?
  {
    hide Run, SeenEmpty;
    if more == [] {
      assert es + more == es;
    } else {
      var k := |more| - 1;
      var (before, e) := (more[..k], more[k]);
      assert more == before + [e];
      forall m | 0 <= m < |before|
        ensures var s := Run(plan, producers, consumers, es + before[..m]); p < |s.producers| && Asking(s.producers[p].pc)
      {
        assert before[..m] == more[..m];
      }
      assert before[..k] == before;
      NoneOnlyFor(plan, producers, consumers, es, before, p);
      SoFarStep(plan, producers, consumers, es, before, e, p);
      if Run(plan, producers, consumers, es + before).live == 0 { assert more[..k] == before; }
    }
  }
}
