/** Reusable payload blocks: each producer owns a closed pool, lends blocks to consumers through its forward
    ring, and gets them back through one return lane per consumer. */
module Leased {
  import opened Wrappers
  import opened Tally
  import opened Custody
  import Arith
  import Scan
  import Shape

  // ---- opening ------------------------------------------------------------------------

  datatype Plan = Plan(blocks: nat, slots: nat)

  const USIZE: nat := 0x1_0000_0000_0000_0000

  /** Shape validation of `open`: pool size per producer and descriptor-ring capacity. */
  function Open(producers: nat, consumers: nat, capacity: nat, batch: nat): (r: Option<Plan>)
    ensures r.Some? ==> producers > 0 && consumers > 0 && 0 < r.value.blocks <= r.value.slots
    ensures r.Some? ==> r.value.blocks * batch == capacity && producers * capacity < USIZE
    ensures r.Some? ==> r.value.slots < 2 * r.value.blocks || r.value == Plan(1, 1)
  {
    if producers == 0 || consumers == 0 || batch == 0 || capacity < batch || capacity % batch != 0 then None
    else
      var blocks := capacity / batch;
      var slots := Shape.NextPow2From(blocks, 1);
      Quotient(capacity, batch);
      if slots >= USIZE || producers * capacity >= USIZE || producers * consumers * slots >= USIZE then None
      else Some(Plan(blocks, slots))
  }

  lemma Quotient(capacity: nat, batch: nat)
    requires 0 < batch <= capacity && capacity % batch == 0
    ensures capacity / batch * batch == capacity && capacity / batch > 0
  {
  }

  lemma LeastRing(blocks: nat, slots: nat)
    requires Shape.IsPow2(slots) && blocks <= slots && (slots < 2 * blocks || slots == 1)
    ensures Shape.NextPow2From(blocks, 1) == slots
  {
    var p := Shape.NextPow2From(blocks, 1);
    Shape.NextPow2IsPow2(blocks, 1);
    Shape.LeastPow2(blocks, 1, slots);
    if p < slots { Shape.Pow2AtMostHalf(slots, p); }
  }

  lemma ProductAtLeast(a: nat, b: nat, c: nat)
    requires a > 0 && b > 0
    ensures a * b * c >= c
  {
    Arith.MulAtLeast(a, b);
    Arith.MulAtLeast(a * b, c);
  }

  /** A declaration is accepted exactly when it has workers on both sides, its capacity is a positive whole number of batches, and
      payloads and return descriptors can be counted in a word, with rings of the least power of two that holds the blocks. */
  lemma OpenAccepted(producers: nat, consumers: nat, capacity: nat, batch: nat, blocks: nat, rest: nat, slots: nat)
    requires capacity == blocks * batch + rest && rest < batch
    requires Shape.IsPow2(slots) && blocks <= slots && (slots < 2 * blocks || slots == 1)
    ensures Open(producers, consumers, capacity, batch) ==
      if producers > 0 && consumers > 0 && blocks > 0 && rest == 0 && producers * capacity < USIZE && producers * consumers * slots < USIZE
      then Some(Plan(blocks, slots)) else None
  {
    Arith.DivMod(capacity, blocks, rest, batch);
    LeastRing(blocks, slots);
    if blocks > 0 { Arith.MulAtLeast(blocks, batch); }
    if producers > 0 && consumers > 0 { ProductAtLeast(producers, consumers, slots); }
    hide Shape.IsPow2, Shape.NextPow2From;
  }

  // ---- machine --------------------------------------------------------------------------

  /** Where a block is: the producer's free list or write lease, the forward ring, a consumer's read lease,
      a consumer's return lane, or destroyed. */
  datatype Place = Free | Writing | Forward | Reading(c: nat) | Lane(c: nat) | Gone

  datatype Goal = Reserving(blocking: bool) | Reclaiming | Flushing | LastFlush

  datatype Pc = Idle | CheckGone(blocking: bool) | Scanning(goal: Goal, left: nat, first: nat) | FlushLook
    | Writable | CommitCheck | Send | Account | Flushed(ok: bool) | Dropped

  /** `at` is history: the place of each block. */
  datatype Producer = Producer(
    free: seq<nat>, lease: Option<nat>, forward: seq<nat>, lanes: seq<seq<nat>>, inFlight: int, cursor: nat, pc: Pc, at: seq<Place>)

  datatype Held = Held(p: nat, b: nat)

  datatype Consumer = Consumer(alive: bool, lease: Option<Held>, pushing: bool)

  /** `refused` records a push that found a full ring. */
  datatype State = State(blocks: nat, slots: nat, producers: seq<Producer>, consumers: seq<Consumer>, live: int, refused: bool)

  datatype Event =
    | TryReserve(p: nat) | Reserve(p: nat) | Reclaim(p: nat) | Flush(p: nat) | Commit(p: nat, filled: nat) | Rollback(p: nat)
    | Go(p: nat) | DropProducer(p: nat)
    | Take(c: nat, from: nat) | Release(c: nat) | GiveBack(c: nat) | DropConsumer(c: nat)

  function NewProducer(consumers: nat, blocks: nat): Producer {
    Producer(seq(blocks, i => i), None, [], seq(consumers, _ => []), 0, 0, Idle, seq(blocks, _ => Free))
  }

  function Init(plan: Plan, producers: nat, consumers: nat): State {
    State(plan.blocks, plan.slots, seq(producers, _ => NewProducer(consumers, plan.blocks)),
          seq(consumers, _ => Consumer(true, None, false)), consumers, false)
  }

  function SetProd(s: State, p: nat, x: Producer): State
    requires p < |s.producers|
  {
    s.(producers := s.producers[p := x])
  }

  function Moved(x: Producer, b: nat, place: Place): Producer {
    if b < |x.at| then x.(at := x.at[b := place]) else x
  }

  predicate Resting(pc: Pc) { pc.Idle? || pc.Flushed? }

  function StartScan(s: State, x: Producer, goal: Goal): Producer {
    x.(pc := Scanning(goal, |x.lanes|, Scan.Index(x.cursor, |x.lanes|)))
  }

  /** No lane had a block. */
  function ScanOver(x: Producer, goal: Goal): Producer {
    match goal
    case Reserving(blocking) =>
      if x.free != [] then
        var b := x.free[|x.free| - 1];
        Moved(x.(free := x.free[..|x.free| - 1], lease := Some(b), pc := Writable), b, Writing)
      else x.(pc := if blocking then CheckGone(true) else Idle)
    case Reclaiming => x.(pc := Idle)
    case Flushing => x.(pc := if x.inFlight == 0 then Flushed(true) else FlushLook)
    case LastFlush => x.(pc := Flushed(x.inFlight == 0))
  }

  function ScanStep(s: State, x: Producer, goal: Goal, left: nat, first: nat): Producer {
    if left == 0 || x.lanes == [] then ScanOver(x, goal)
    else
      var i := Scan.Index(x.cursor, |x.lanes|);
      var y := x.(cursor := i + 1);
      if x.lanes[i] == [] then y.(pc := Scanning(goal, left - 1, first))
      else
        var b := x.lanes[i][0];
        var z := y.(lanes := x.lanes[i := x.lanes[i][1..]], inFlight := x.inFlight - 1);
        if goal.Reserving? then Moved(z.(lease := Some(b), pc := Writable), b, Writing)
        else StartScan(s, Moved(z.(free := x.free + [b]), b, Free), goal)
  }

  function GoStep(s: State, p: nat): State
    requires p < |s.producers|
  {
    var x := s.producers[p];
    match x.pc
    case CheckGone(blocking) => SetProd(s, p, if s.live == 0 then x.(pc := Idle) else StartScan(s, x, Reserving(blocking)))
    case Scanning(goal, left, first) => SetProd(s, p, ScanStep(s, x, goal, left, first))
    case FlushLook => SetProd(s, p, StartScan(s, x, if s.live == 0 then LastFlush else Flushing))
    case CommitCheck => SetProd(s, p, x.(pc := if s.live == 0 then Writable else Send))
    case Send =>
      if x.lease.None? then s
      else if |x.forward| < s.slots
      then SetProd(s, p, Moved(x.(lease := None, forward := x.forward + [x.lease.value], pc := Account), x.lease.value, Forward))
      else SetProd(s, p, x.(pc := Writable)).(refused := true)
    case Account => SetProd(s, p, x.(inFlight := x.inFlight + 1, pc := Idle))
    case _ => s
  }

  function Rolled(x: Producer): Producer {
    if x.lease.None? then x
    else Moved(x.(free := x.free + [x.lease.value], lease := None, pc := Idle), x.lease.value, Free)
  }

  function DestroyedPlace(place: Place): Place { if place.Free? || place.Lane? then Gone else place }

  /** The free list and the receiving ends of the lanes go with the producer. */
  function Torn(x: Producer): Producer {
    x.(free := [], lanes := seq(|x.lanes|, _ => []), pc := Dropped,
       at := seq(|x.at|, b requires 0 <= b < |x.at| => DestroyedPlace(x.at[b])))
  }

  function ProducerStep(s: State, p: nat, e: Event): State
    requires p < |s.producers|
  {
    var x := s.producers[p];
    match e
    case TryReserve(_) => if Resting(x.pc) then SetProd(s, p, x.(pc := CheckGone(false))) else s
    case Reserve(_) => if Resting(x.pc) then SetProd(s, p, x.(pc := CheckGone(true))) else s
    case Reclaim(_) => if Resting(x.pc) then SetProd(s, p, StartScan(s, x, Reclaiming)) else s
    case Flush(_) => if Resting(x.pc) then SetProd(s, p, StartScan(s, x, Flushing)) else s
    case Commit(_, filled) =>
      if !x.pc.Writable? then s else SetProd(s, p, if filled == 0 then Rolled(x) else x.(pc := CommitCheck))
    case Rollback(_) => if x.pc.Writable? then SetProd(s, p, Rolled(x)) else s
    case DropProducer(_) => if Resting(x.pc) then SetProd(s, p, Torn(x)) else s
    case Go(_) => GoStep(s, p)
    case _ => s
  }

  function ConsumerStep(s: State, c: nat, e: Event): State
    requires c < |s.consumers|
  {
    var y := s.consumers[c];
    match e
    case Take(_, p) =>
      if y.alive && y.lease.None? && p < |s.producers| && s.producers[p].forward != [] then
        var x := s.producers[p];
        var b := x.forward[0];
        SetProd(s, p, Moved(x.(forward := x.forward[1..]), b, Reading(c))).(consumers := s.consumers[c := y.(lease := Some(Held(p, b)))])
      else s
    case Release(_) =>
      if y.lease.None? || y.pushing || y.lease.value.p >= |s.producers| then s
      else if s.producers[y.lease.value.p].pc.Dropped?
      then SetProd(s, y.lease.value.p, Moved(s.producers[y.lease.value.p], y.lease.value.b, Gone)).(consumers := s.consumers[c := y.(lease := None)])
      else s.(consumers := s.consumers[c := y.(pushing := true)])
    case GiveBack(_) =>
      if y.lease.None? || !y.pushing || y.lease.value.p >= |s.producers| || c >= |s.producers[y.lease.value.p].lanes| then s
      else
        var (p, b) := (y.lease.value.p, y.lease.value.b);
        var x := s.producers[p];
        var t := s.(consumers := s.consumers[c := y.(lease := None, pushing := false)]);
        if |x.lanes[c]| < s.slots then SetProd(t, p, Moved(x.(lanes := x.lanes[c := x.lanes[c] + [b]]), b, Lane(c)))
        else SetProd(t, p, Moved(x, b, Gone)).(refused := true)
    case DropConsumer(_) =>
      if y.alive && y.lease.None? then s.(consumers := s.consumers[c := y.(alive := false)], live := s.live - 1) else s
    case _ => s
  }

  function Step(s: State, e: Event): State {
    if e.Take? || e.Release? || e.GiveBack? || e.DropConsumer?
    then (if e.c < |s.consumers| then ConsumerStep(s, e.c, e) else s)
    else (if e.p < |s.producers| then ProducerStep(s, e.p, e) else s)
  }

  function Run(plan: Plan, producers: nat, consumers: nat, es: seq<Event>): State {
    if es == [] then Init(plan, producers, consumers) else Step(Run(plan, producers, consumers, es[..|es| - 1]), es[|es| - 1])
  }

  // ---- invariant ----------------------------------------------------------------------------

  predicate Out(place: Place) { place.Forward? || place.Reading? || place.Lane? }

  function OutFlags(at: seq<Place>): seq<bool> { seq(|at|, b requires 0 <= b < |at| => Out(at[b])) }

  /** Free list, forward ring, lanes and write lease hold exactly the blocks placed there. */
  ghost predicate Boxes(x: Producer) {
    && Box(x.free, x.at, Free) && Box(x.forward, x.at, Forward)
    && (forall c :: 0 <= c < |x.lanes| ==> Box(x.lanes[c], x.at, Lane(c)))
    && Box(if x.lease.Some? then [x.lease.value] else [], x.at, Writing)
  }

  ghost predicate Readers(s: State, p: nat, x: Producer) {
    && (forall b :: 0 <= b < |x.at| && x.at[b].Reading? ==> x.at[b].c < |s.consumers| && s.consumers[x.at[b].c].lease == Some(Held(p, b)))
    && (forall b :: 0 <= b < |x.at| && x.at[b].Lane? ==> x.at[b].c < |s.consumers|)
    && (forall c :: 0 <= c < |s.consumers| && s.consumers[c].lease.Some? && s.consumers[c].lease.value.p == p ==>
          s.consumers[c].lease.value.b < |x.at| && x.at[s.consumers[c].lease.value.b] == Reading(c))
  }

  /** `in_flight` lags by the commit not yet accounted for; a live producer has lost no block. */
  ghost predicate Flight(x: Producer) {
    !x.pc.Dropped? ==>
      && x.inFlight + (if x.pc.Account? then 1 else 0) == Count(OutFlags(x.at))
      && forall b :: 0 <= b < |x.at| ==> !x.at[b].Gone?
  }

  ghost predicate Pcs(s: State, x: Producer) {
    && (x.lease.Some? <==> x.pc.Writable? || x.pc.CommitCheck? || x.pc.Send?)
    && (x.pc.Scanning? ==>
          && x.pc.first < |x.lanes| && x.pc.left <= |x.lanes|
          && (x.pc.left > 0 ==> Scan.Index(x.cursor, |x.lanes|) == Scan.Spot(x.pc.first, |x.lanes| - x.pc.left, |x.lanes|))
          && (x.pc.goal.LastFlush? ==>
                && s.live == 0
                && (forall c :: 0 <= c < |x.lanes| && Scan.Place(x.pc.first, c, |x.lanes|) < |x.lanes| - x.pc.left ==> x.lanes[c] == [])))
    && (x.pc.Flushed? ==> if x.pc.ok then x.inFlight == 0 else
          s.live == 0 && x.inFlight != 0 && forall c :: 0 <= c < |x.lanes| ==> x.lanes[c] == [])
  }

  ghost predicate ProdOk(s: State, p: nat, x: Producer) {
    |x.at| == s.blocks && |x.lanes| == |s.consumers| && Boxes(x) && Readers(s, p, x) && Flight(x) && Pcs(s, x)
  }

  function AliveFlags(s: State): seq<bool> { seq(|s.consumers|, c requires 0 <= c < |s.consumers| => s.consumers[c].alive) }

  ghost predicate ConsOk(s: State, y: Consumer) {
    && (y.lease.Some? ==> y.alive && y.lease.value.p < |s.producers|)
    && (y.pushing ==> y.lease.Some?)
  }

  ghost predicate Inv(s: State) {
    && 0 < s.blocks <= s.slots && 0 < |s.consumers| && !s.refused && s.live == Count(AliveFlags(s))
    && (forall p :: 0 <= p < |s.producers| ==> ProdOk(s, p, s.producers[p]))
    && (forall c :: 0 <= c < |s.consumers| ==> ConsOk(s, s.consumers[c]))
  }

  lemma OutUpdate(at: seq<Place>, b: nat, place: Place)
    requires b < |at|
    ensures Count(OutFlags(at[b := place])) == Count(OutFlags(at)) - (if Out(at[b]) then 1 else 0) + (if Out(place) then 1 else 0)
  {
    CountUpdate(OutFlags(at), b, Out(place));
    assert OutFlags(at[b := place]) == OutFlags(at)[b := Out(place)];
  }

  /** No consumer, no read lease. */
  lemma NobodyReads(s: State)
    requires Inv(s) && s.live == 0
    ensures forall c :: 0 <= c < |s.consumers| ==> !s.consumers[c].alive && s.consumers[c].lease.None?
  {
    CountExtremes(AliveFlags(s));
    forall c | 0 <= c < |s.consumers| ensures !s.consumers[c].alive && s.consumers[c].lease.None? {
      assert !AliveFlags(s)[c];
      assert ConsOk(s, s.consumers[c]);
    }
  }

  lemma ProducerOnly(s: State, p: nat, y: Producer)
    requires Inv(s) && p < |s.producers| && ProdOk(s, p, y)
    ensures Inv(SetProd(s, p, y))
  {
    hide Boxes, Flight, Count;
    var t := SetProd(s, p, y);
    assert AliveFlags(t) == AliveFlags(s);
    forall q | 0 <= q < |t.producers| ensures ProdOk(t, q, t.producers[q]) {
      assert ProdOk(s, q, s.producers[q]);
    }
    forall c | 0 <= c < |t.consumers| ensures ConsOk(t, t.consumers[c]) { assert ConsOk(s, s.consumers[c]); }
  }

  /** Steps of a producer between pcs that move no block. */
  lemma PcOnly(s: State, p: nat, y: Producer)
    requires Inv(s) && p < |s.producers| && y == s.producers[p].(pc := y.pc, cursor := y.cursor)
    requires Pcs(s, y) && y.pc.Account? == s.producers[p].pc.Account? && y.pc.Dropped? == s.producers[p].pc.Dropped?
    ensures Inv(SetProd(s, p, y))
  {
    assert ProdOk(s, p, s.producers[p]);
    hide Box, Count, Pcs;
    ProducerOnly(s, p, y);
  }

  // ---- moves of one block -------------------------------------------------------------------

  /** The boxes after block b left `from` and entered `to`. */
  lemma OtherBoxes(x: Producer, b: nat, to: Place)
    requires Boxes(x) && b < |x.at|
    ensures x.at[b] != Free && to != Free ==> Box(x.free, x.at[b := to], Free)
    ensures x.at[b] != Forward && to != Forward ==> Box(x.forward, x.at[b := to], Forward)
    ensures forall c :: 0 <= c < |x.lanes| && x.at[b] != Lane(c) && to != Lane(c) ==> Box(x.lanes[c], x.at[b := to], Lane(c))
    ensures x.at[b] != Writing && to != Writing ==> Box(if x.lease.Some? then [x.lease.value] else [], x.at[b := to], Writing)
  {
    hide Box;
    if x.at[b] != Free && to != Free { BoxOther(x.free, x.at, Free, b, to); }
    if x.at[b] != Forward && to != Forward { BoxOther(x.forward, x.at, Forward, b, to); }
    if x.at[b] != Writing && to != Writing { BoxOther(if x.lease.Some? then [x.lease.value] else [], x.at, Writing, b, to); }
    forall c | 0 <= c < |x.lanes| && x.at[b] != Lane(c) && to != Lane(c) ensures Box(x.lanes[c], x.at[b := to], Lane(c)) {
      BoxOther(x.lanes[c], x.at, Lane(c), b, to);
    }
  }

  lemma FreeToLease(x: Producer)
    requires Boxes(x) && x.lease.None? && x.free != []
    ensures var b := x.free[|x.free| - 1];
      b < |x.at| && x.at[b] == Free && Boxes(Moved(x.(free := x.free[..|x.free| - 1], lease := Some(b)), b, Writing))
  {
    var b := x.free[|x.free| - 1];
    hide Box;
    BoxPopBack(x.free, x.at, Free, Writing);
    OtherBoxes(x, b, Writing);
    BoxPush([], x.at, Writing, b);
    assert [] + [b] == [b];
  }

  lemma LaneToLease(x: Producer, i: nat)
    requires Boxes(x) && x.lease.None? && i < |x.lanes| && x.lanes[i] != []
    ensures var b := x.lanes[i][0];
      b < |x.at| && x.at[b] == Lane(i) && Boxes(Moved(x.(lanes := x.lanes[i := x.lanes[i][1..]], lease := Some(b)), b, Writing))
  {
    var b := x.lanes[i][0];
    hide Box;
    BoxPopFront(x.lanes[i], x.at, Lane(i), Writing);
    OtherBoxes(x, b, Writing);
    BoxPush([], x.at, Writing, b);
    assert [] + [b] == [b];
  }

  lemma LaneToFree(x: Producer, i: nat)
    requires Boxes(x) && i < |x.lanes| && x.lanes[i] != []
    ensures var b := x.lanes[i][0];
      b < |x.at| && x.at[b] == Lane(i) && Boxes(Moved(x.(lanes := x.lanes[i := x.lanes[i][1..]], free := x.free + [b]), b, Free))
  {
    var b := x.lanes[i][0];
    hide Box;
    BoxPopFront(x.lanes[i], x.at, Lane(i), Free);
    OtherBoxes(x, b, Free);
    BoxPush(x.free, x.at, Free, b);
  }

  lemma LeaseToForward(x: Producer)
    requires Boxes(x) && x.lease.Some?
    ensures var b := x.lease.value;
      b < |x.at| && x.at[b] == Writing && |x.forward| < |x.at| && Boxes(Moved(x.(lease := None, forward := x.forward + [b]), b, Forward))
  {
    var b := x.lease.value;
    BoxPopFront([b], x.at, Writing, Forward);
    hide Box;
    assert [b][1..] == [];
    OtherBoxes(x, b, Forward);
    BoxPush(x.forward, x.at, Forward, b);
    BoxRoom(x.forward, x.at, Forward, b);
  }

  lemma LeaseToFree(x: Producer)
    requires Boxes(x) && x.lease.Some?
    ensures var b := x.lease.value;
      b < |x.at| && x.at[b] == Writing && Boxes(Moved(x.(free := x.free + [b], lease := None), b, Free))
  {
    var b := x.lease.value;
    BoxPopFront([b], x.at, Writing, Free);
    hide Box;
    assert [b][1..] == [];
    OtherBoxes(x, b, Free);
    BoxPush(x.free, x.at, Free, b);
  }

  lemma ForwardToReader(x: Producer, c: nat)
    requires Boxes(x) && x.forward != []
    ensures var b := x.forward[0];
      b < |x.at| && x.at[b] == Forward && Boxes(Moved(x.(forward := x.forward[1..]), b, Reading(c)))
  {
    hide Box;
    BoxPopFront(x.forward, x.at, Forward, Reading(c));
    OtherBoxes(x, x.forward[0], Reading(c));
  }

  lemma ReaderToLane(x: Producer, c: nat, b: nat)
    requires Boxes(x) && b < |x.at| && x.at[b].Reading? && c < |x.lanes|
    ensures |x.lanes[c]| < |x.at| && Boxes(Moved(x.(lanes := x.lanes[c := x.lanes[c] + [b]]), b, Lane(c)))
  {
    hide Box;
    OtherBoxes(x, b, Lane(c));
    BoxPush(x.lanes[c], x.at, Lane(c), b);
    BoxRoom(x.lanes[c], x.at, Lane(c), b);
  }

  // ---- producer steps -----------------------------------------------------------------------

  /** A block that no reader holds, before and after, leaves the readers alone. */
  lemma MovedOk(s: State, p: nat, x: Producer, y: Producer, b: nat, to: Place)
    requires ProdOk(s, p, x) && b < |x.at| && !x.at[b].Reading? && !to.Reading? && !to.Lane? && !to.Gone?
    requires y.at == x.at[b := to] && |y.lanes| == |x.lanes| && Boxes(y) && Pcs(s, y) && !x.pc.Dropped? && !y.pc.Dropped?
    requires y.inFlight + (if y.pc.Account? then 1 else 0)
      == x.inFlight + (if x.pc.Account? then 1 else 0) - (if Out(x.at[b]) then 1 else 0) + (if Out(to) then 1 else 0)
    ensures ProdOk(s, p, y)
  {
    hide Boxes, Pcs, Count;
    OutUpdate(x.at, b, to);
  }

  lemma GrabKeeps(s: State, p: nat, y: Producer)
    requires Inv(s) && p < |s.producers| && s.producers[p].lease.None? && s.producers[p].free != []
    requires !s.producers[p].pc.Account? && !s.producers[p].pc.Dropped?
    requires var x := s.producers[p]; var b := x.free[|x.free| - 1];
      y == Moved(x.(free := x.free[..|x.free| - 1], lease := Some(b), pc := Writable), b, Writing)
    ensures Inv(SetProd(s, p, y))
  {
    var x := s.producers[p];
    var b := x.free[|x.free| - 1];
    assert ProdOk(s, p, x);
    hide Boxes, Count, Readers, Flight, AliveFlags, Inv;
    FreeToLease(x);
    BoxesSame(Moved(x.(free := x.free[..|x.free| - 1], lease := Some(b)), b, Writing), y);
    assert Pcs(s, y);
    hide Pcs;
    MovedOk(s, p, x, y, b, Writing);
    ProducerOnly(s, p, y);
  }

  lemma ScanOverKeeps(s: State, p: nat, goal: Goal, left: nat, first: nat)
    requires Inv(s) && p < |s.producers| && s.producers[p].pc == Scanning(goal, left, first) && left == 0
    ensures Inv(SetProd(s, p, ScanOver(s.producers[p], goal)))
  {
    var x := s.producers[p];
    assert ProdOk(s, p, x);
    hide Boxes, Count, Readers, Flight, AliveFlags, Inv;
    if goal.Reserving? && x.free != [] {
      GrabKeeps(s, p, ScanOver(x, goal));
    } else {
      assert forall c :: 0 <= c < |x.lanes| ==> 0 <= Scan.Place(first, c, |x.lanes|) < |x.lanes|;
      PcOnly(s, p, ScanOver(x, goal));
    }
  }

  lemma BoxesSame(x: Producer, y: Producer)
    requires Boxes(x) && y == x.(inFlight := y.inFlight, cursor := y.cursor, pc := y.pc)
    ensures Boxes(y)
  {
  }

  lemma HitToLease(s: State, p: nat, i: nat, y: Producer)
    requires Inv(s) && p < |s.producers| && s.producers[p].pc.Scanning? && i < |s.producers[p].lanes| && s.producers[p].lanes[i] != []
    requires var x := s.producers[p]; var b := x.lanes[i][0];
      y == Moved(x.(lanes := x.lanes[i := x.lanes[i][1..]], lease := Some(b)), b, Writing).(inFlight := x.inFlight - 1, cursor := y.cursor, pc := Writable)
    ensures Inv(SetProd(s, p, y))
  {
    var x := s.producers[p];
    var b := x.lanes[i][0];
    assert ProdOk(s, p, x);
    hide Boxes, Count, Readers, Flight, AliveFlags, Inv;
    LaneToLease(x, i);
    BoxesSame(Moved(x.(lanes := x.lanes[i := x.lanes[i][1..]], lease := Some(b)), b, Writing), y);
    assert Pcs(s, y);
    hide Pcs;
    MovedOk(s, p, x, y, b, Writing);
    ProducerOnly(s, p, y);
  }

  lemma HitToFree(s: State, p: nat, i: nat, y: Producer)
    requires Inv(s) && p < |s.producers| && s.producers[p].pc.Scanning? && i < |s.producers[p].lanes| && s.producers[p].lanes[i] != []
    requires var x := s.producers[p]; var b := x.lanes[i][0];
      y == StartScan(s, Moved(x.(lanes := x.lanes[i := x.lanes[i][1..]], free := x.free + [b]), b, Free)
                        .(inFlight := x.inFlight - 1, cursor := y.cursor), x.pc.goal)
    ensures Inv(SetProd(s, p, y))
  {
    hide Boxes, Count, Readers, Flight, AliveFlags;
    var x := s.producers[p];
    var b := x.lanes[i][0];
    assert ProdOk(s, p, x);
    hide Inv;
    LaneToFree(x, i);
    BoxesSame(Moved(x.(lanes := x.lanes[i := x.lanes[i][1..]], free := x.free + [b]), b, Free), y);
    assert Pcs(s, y);
    hide Pcs;
    MovedOk(s, p, x, y, b, Free);
    ProducerOnly(s, p, y);
  }

  lemma HitKeeps(s: State, p: nat, goal: Goal, left: nat, first: nat)
    requires Inv(s) && p < |s.producers| && s.producers[p].pc == Scanning(goal, left, first) && left > 0
    requires var x := s.producers[p]; x.lanes != [] && x.lanes[Scan.Index(x.cursor, |x.lanes|)] != []
    ensures Inv(SetProd(s, p, ScanStep(s, s.producers[p], goal, left, first)))
  {
    hide Inv;
    var x := s.producers[p];
    var i := Scan.Index(x.cursor, |x.lanes|);
    if goal.Reserving? {
      HitToLease(s, p, i, ScanStep(s, x, goal, left, first));
    } else {
      HitToFree(s, p, i, ScanStep(s, x, goal, left, first));
    }
  }

  lemma ScanKeeps(s: State, p: nat, goal: Goal, left: nat, first: nat)
    requires Inv(s) && p < |s.producers| && s.producers[p].pc == Scanning(goal, left, first)
    ensures Inv(SetProd(s, p, ScanStep(s, s.producers[p], goal, left, first)))
  {
    var x := s.producers[p];
    assert ProdOk(s, p, x);
    if left == 0 {
      ScanOverKeeps(s, p, goal, left, first);
    } else if x.lanes[Scan.Index(x.cursor, |x.lanes|)] != [] {
      HitKeeps(s, p, goal, left, first);
    } else {
      hide Boxes, Flight, Readers, Count;
      PcOnly(s, p, ScanStep(s, x, goal, left, first));
    }
  }

  lemma SendKeeps(s: State, p: nat)
    requires Inv(s) && p < |s.producers| && s.producers[p].pc.Send?
    ensures Inv(GoStep(s, p))
  {
    hide Box, Count, Readers, Flight, AliveFlags;
    var x := s.producers[p];
    assert ProdOk(s, p, x);
    LeaseToForward(x);
    var b := x.lease.value;
    var y := Moved(x.(lease := None, forward := x.forward + [b], pc := Account), b, Forward);
    assert Boxes(y);
    hide Boxes;
    MovedOk(s, p, x, y, b, Forward);
    hide Pcs;
    ProducerOnly(s, p, y);
  }

  lemma AccountKeeps(s: State, p: nat)
    requires Inv(s) && p < |s.producers| && s.producers[p].pc.Account?
    ensures Inv(GoStep(s, p))
  {
    hide Box, Count, AliveFlags;
    var x := s.producers[p];
    assert ProdOk(s, p, x);
    hide Readers;
    ProducerOnly(s, p, x.(inFlight := x.inFlight + 1, pc := Idle));
  }

  lemma GoKeeps(s: State, p: nat)
    requires Inv(s) && p < |s.producers|
    ensures Inv(GoStep(s, p))
  {
    var x := s.producers[p];
    assert ProdOk(s, p, x);
    hide Boxes, Count, Readers, Flight, AliveFlags, ScanStep;
    match x.pc
    case Scanning(goal, left, first) => ScanKeeps(s, p, goal, left, first);
    case Send => SendKeeps(s, p);
    case Account => AccountKeeps(s, p);
    case CheckGone(blocking) => PcOnly(s, p, if s.live == 0 then x.(pc := Idle) else StartScan(s, x, Reserving(blocking)));
    case FlushLook => PcOnly(s, p, StartScan(s, x, if s.live == 0 then LastFlush else Flushing));
    case CommitCheck => PcOnly(s, p, x.(pc := if s.live == 0 then Writable else Send));
    case _ =>
  }

  lemma RolledKeeps(s: State, p: nat)
    requires Inv(s) && p < |s.producers| && s.producers[p].pc.Writable?
    ensures Inv(SetProd(s, p, Rolled(s.producers[p])))
  {
    var x := s.producers[p];
    assert ProdOk(s, p, x);
    hide Box, Count;
    LeaseToFree(x);
    MovedOk(s, p, x, Rolled(x), x.lease.value, Free);
    ProducerOnly(s, p, Rolled(x));
  }

  lemma TornBoxes(x: Producer)
    requires Boxes(x) && x.lease.None?
    ensures Boxes(Torn(x))
  {
    var y := Torn(x);
    forall b | 0 <= b < |y.at| && y.at[b] == Forward ensures b in x.forward { assert x.at[b] == Forward; }
    assert Box(x.forward, y.at, Forward);
    assert Box([], y.at, Writing);
  }

  lemma TornKeeps(s: State, p: nat)
    requires Inv(s) && p < |s.producers| && Resting(s.producers[p].pc)
    ensures Inv(SetProd(s, p, Torn(s.producers[p])))
  {
    var x := s.producers[p];
    var y := Torn(x);
    assert ProdOk(s, p, x);
    hide Boxes, Count, AliveFlags;
    TornBoxes(x);
    assert Readers(s, p, y);
    hide Readers;
    ProducerOnly(s, p, y);
  }

  lemma ProducerKeeps(s: State, p: nat, e: Event)
    requires Inv(s) && p < |s.producers|
    ensures Inv(ProducerStep(s, p, e))
  {
    var x := s.producers[p];
    assert ProdOk(s, p, x);
    hide Boxes, Flight, Readers, Count;
    match e
    case Go(_) => GoKeeps(s, p);
    case Commit(_, filled) =>
      if x.pc.Writable? { if filled == 0 { RolledKeeps(s, p); } else { PcOnly(s, p, x.(pc := CommitCheck)); } }
    case Rollback(_) => if x.pc.Writable? { RolledKeeps(s, p); }
    case DropProducer(_) => if Resting(x.pc) { TornKeeps(s, p); }
    case TryReserve(_) => if Resting(x.pc) { PcOnly(s, p, x.(pc := CheckGone(false))); }
    case Reserve(_) => if Resting(x.pc) { PcOnly(s, p, x.(pc := CheckGone(true))); }
    case Reclaim(_) => if Resting(x.pc) { PcOnly(s, p, StartScan(s, x, Reclaiming)); }
    case Flush(_) => if Resting(x.pc) { PcOnly(s, p, StartScan(s, x, Flushing)); }
    case _ =>
  }

  // ---- consumer steps -----------------------------------------------------------------------

  /** Consumer c takes or lets go of a block of producer p: the others do not notice. */
  lemma LeaseChange(s: State, c: nat, y: Consumer, p: nat, x: Producer, live: int)
    requires Inv(s) && c < |s.consumers| && p < |s.producers|
    requires s.consumers[c].lease.None? || s.consumers[c].lease.value.p == p
    requires y.lease.None? || y.lease.value.p == p
    requires var t := s.(consumers := s.consumers[c := y], live := live);
      ProdOk(t, p, x) && ConsOk(s, y) && live == Count(AliveFlags(t)) && (s.live == 0 ==> live == 0)
    ensures Inv(SetProd(s, p, x).(consumers := s.consumers[c := y], live := live))
  {
    hide Boxes, Flight, Count;
    var t := SetProd(s, p, x).(consumers := s.consumers[c := y], live := live);
    assert AliveFlags(t) == AliveFlags(s.(consumers := s.consumers[c := y], live := live));
    forall q | 0 <= q < |t.producers| ensures ProdOk(t, q, t.producers[q]) {
      assert ProdOk(s, q, s.producers[q]);
      assert Readers(t, q, t.producers[q]);
    }
    forall d | 0 <= d < |t.consumers| ensures ConsOk(t, t.consumers[d]) { assert ConsOk(s, s.consumers[d]); }
  }

  lemma SameAlive(s: State, c: nat, y: Consumer)
    requires c < |s.consumers| && y.alive == s.consumers[c].alive
    ensures AliveFlags(s.(consumers := s.consumers[c := y])) == AliveFlags(s)
  {
  }

  lemma TakeReaders(s: State, c: nat, p: nat, x: Producer, b: nat)
    requires Readers(s, p, x) && c < |s.consumers| && s.consumers[c].lease.None? && b < |x.at| && x.at[b].Forward?
    ensures Readers(s.(consumers := s.consumers[c := s.consumers[c].(lease := Some(Held(p, b)))]), p, x.(at := x.at[b := Reading(c)]))
  {
  }

  lemma LetGoReaders(s: State, c: nat, p: nat, x: Producer, y: Consumer, b: nat, to: Place)
    requires Readers(s, p, x) && c < |s.consumers| && s.consumers[c].lease == Some(Held(p, b)) && y.lease.None?
    requires to == Gone || to == Lane(c)
    ensures b < |x.at| && x.at[b] == Reading(c) && Readers(s.(consumers := s.consumers[c := y]), p, x.(at := x.at[b := to]))
  {
  }

  /** A block that stays out of the producer's hands does not change the count, nor what the pc promises. */
  lemma StaysOut(s: State, x: Producer, y: Producer, b: nat)
    requires Flight(x) && b < |x.at| && b < |y.at| && Out(x.at[b]) && Out(y.at[b]) && y.at == x.at[b := y.at[b]]
    requires y.pc == x.pc && y.inFlight == x.inFlight && y.lease == x.lease && y.cursor == x.cursor && |y.lanes| == |x.lanes|
    requires Pcs(s, x) && (s.live == 0 ==> y.lanes == x.lanes)
    ensures Flight(y) && Pcs(s, y)
  {
    OutUpdate(x.at, b, y.at[b]);
    hide Count;
  }

  lemma TakeKeeps(s: State, c: nat, p: nat)
    requires Inv(s) && c < |s.consumers|
    ensures Inv(ConsumerStep(s, c, Take(c, p)))
  {
    var y := s.consumers[c];
    if y.alive && y.lease.None? && p < |s.producers| && s.producers[p].forward != [] {
      var x := s.producers[p];
      var b := x.forward[0];
      var z := Moved(x.(forward := x.forward[1..]), b, Reading(c));
      var w := y.(lease := Some(Held(p, b)));
      assert ProdOk(s, p, x) && ConsOk(s, y);
      hide Box, Count, Readers, AliveFlags;
      ForwardToReader(x, c);
      hide Boxes;
      TakeReaders(s, c, p, x, b);
      StaysOut(s, x, z, b);
      SameAlive(s, c, w);
      var t := s.(consumers := s.consumers[c := w]);
      ReadersAt(t, p, x.(at := z.at), z);
      assert Pcs(t, z);
      hide Pcs, Flight;
      LeaseChange(s, c, w, p, z, s.live);
    }
  }

  lemma ReleaseKeeps(s: State, c: nat)
    requires Inv(s) && c < |s.consumers|
    ensures Inv(ConsumerStep(s, c, Release(c)))
  {
    hide Box, Count, AliveFlags;
    var y := s.consumers[c];
    assert ConsOk(s, y);
    if y.lease.Some? && !y.pushing {
      var (p, b) := (y.lease.value.p, y.lease.value.b);
      var x := s.producers[p];
      assert ProdOk(s, p, x);
      if x.pc.Dropped? {
        hide Readers;
        var z, w := Moved(x, b, Gone), y.(lease := None);
        LetGoReaders(s, c, p, x, w, b, Gone);
        OtherBoxes(x, b, Gone);
        SameAlive(s, c, w);
        assert Boxes(z);
        hide Boxes;
        LeaseChange(s, c, w, p, z, s.live);
      } else {
        hide Boxes, Flight;
        var w := y.(pushing := true);
        SameAlive(s, c, w);
        assert Readers(s.(consumers := s.consumers[c := w]), p, x);
        hide Readers;
        LeaseChange(s, c, w, p, x, s.live);
        assert SetProd(s, p, x).producers == s.producers;
      }
    }
  }

  lemma GiveBackKeeps(s: State, c: nat)
    requires Inv(s) && c < |s.consumers|
    ensures Inv(ConsumerStep(s, c, GiveBack(c)))
  {
    var y := s.consumers[c];
    assert ConsOk(s, y);
    hide Box, Count, AliveFlags, Readers;
    if y.lease.Some? && y.pushing {
      var (p, b) := (y.lease.value.p, y.lease.value.b);
      var x := s.producers[p];
      assert ProdOk(s, p, x);
      var z, w := Moved(x.(lanes := x.lanes[c := x.lanes[c] + [b]]), b, Lane(c)), y.(lease := None, pushing := false);
      LetGoReaders(s, c, p, x, w, b, Lane(c));
      ReaderToLane(x, c, b);
      hide Boxes;
      if s.live == 0 { NobodyReads(s); }
      StaysOut(s, x, z, b);
      SameAlive(s, c, w);
      var t := s.(consumers := s.consumers[c := w]);
      ReadersAt(t, p, x.(at := z.at), z);
      assert Pcs(t, z);
      hide Pcs, Flight;
      LeaseChange(s, c, w, p, z, s.live);
    }
  }

  lemma ReadersAt(s: State, p: nat, x: Producer, y: Producer)
    requires Readers(s, p, x) && x.at == y.at
    ensures Readers(s, p, y)
  {
  }

  lemma DropConsumerKeeps(s: State, c: nat)
    requires Inv(s) && c < |s.consumers|
    ensures Inv(ConsumerStep(s, c, DropConsumer(c)))
  {
    var y := s.consumers[c];
    if y.alive && y.lease.None? {
      var t := ConsumerStep(s, c, DropConsumer(c));
      hide Boxes, Flight, Count;
      CountUpdate(AliveFlags(s), c, false);
      assert AliveFlags(t) == AliveFlags(s)[c := false];
      assert s.live > 0 by { CountExtremes(AliveFlags(s)); assert AliveFlags(s)[c]; }
      forall q | 0 <= q < |t.producers| ensures ProdOk(t, q, t.producers[q]) {
        assert ProdOk(s, q, s.producers[q]);
        assert Readers(t, q, t.producers[q]);
      }
      forall d | 0 <= d < |t.consumers| ensures ConsOk(t, t.consumers[d]) { assert ConsOk(s, s.consumers[d]); }
    }
  }

  lemma StepKeeps(s: State, e: Event)
    requires Inv(s)
    ensures Inv(Step(s, e))
  {
    hide Inv, ProducerStep;
    if e.Take? { if e.c < |s.consumers| { TakeKeeps(s, e.c, e.from); } }
    else if e.Release? { if e.c < |s.consumers| { ReleaseKeeps(s, e.c); } }
    else if e.GiveBack? { if e.c < |s.consumers| { GiveBackKeeps(s, e.c); } }
    else if e.DropConsumer? { if e.c < |s.consumers| { DropConsumerKeeps(s, e.c); } }
    else if e.p < |s.producers| { ProducerKeeps(s, e.p, e); }
  }

  lemma InitOk(plan: Plan, producers: nat, consumers: nat)
    requires consumers > 0 && 0 < plan.blocks <= plan.slots
    ensures Inv(Init(plan, producers, consumers))
  {
    var s := Init(plan, producers, consumers);
    CountExtremes(AliveFlags(s));
    var x := NewProducer(consumers, plan.blocks);
    CountExtremes(OutFlags(x.at));
    forall b | 0 <= b < |x.at| ensures b in x.free { assert x.free[b] == b; }
    assert Boxes(x);
    forall p | 0 <= p < producers ensures ProdOk(s, p, x) { }
  }

  lemma {:induction false} RunInv(plan: Plan, producers: nat, consumers: nat, es: seq<Event>)
    requires consumers > 0 && 0 < plan.blocks <= plan.slots
    ensures Inv(Run(plan, producers, consumers, es))
  {
    if es == [] {
      InitOk(plan, producers, consumers);
    } else {
      RunInv(plan, producers, consumers, es[..|es| - 1]);
      StepKeeps(Run(plan, producers, consumers, es[..|es| - 1]), es[|es| - 1]);
    }
  }

  // ---- theorems -------------------------------------------------------------------------------

  /** The pool is closed: for every producer, free list, write lease, forward ring, read leases and return
      lanes hold each block exactly once, and no push ever meets a full ring. */
  lemma Conservation(producers: nat, consumers: nat, capacity: nat, batch: nat, es: seq<Event>, p: nat)
    requires var plan := Open(producers, consumers, capacity, batch); plan.Some? && p < |Run(plan.value, producers, consumers, es).producers|
    ensures var s := Run(Open(producers, consumers, capacity, batch).value, producers, consumers, es);
      var x := s.producers[p];
      && !s.refused && Boxes(x) && Readers(s, p, x)
      && (!x.pc.Dropped? ==> forall b :: 0 <= b < s.blocks ==> b < |x.at| && !x.at[b].Gone?)
  {
    var plan := Open(producers, consumers, capacity, batch).value;
    RunInv(plan, producers, consumers, es);
    var s := Run(plan, producers, consumers, es);
    assert ProdOk(s, p, s.producers[p]);
  }

  /** Between calls, `in_flight` is the number of blocks in the forward ring, in read leases and in return lanes. */
  lemma InFlightExact(plan: Plan, producers: nat, consumers: nat, es: seq<Event>, p: nat)
    requires consumers > 0 && 0 < plan.blocks <= plan.slots && p < |Run(plan, producers, consumers, es).producers|
    requires Resting(Run(plan, producers, consumers, es).producers[p].pc)
    ensures var x := Run(plan, producers, consumers, es).producers[p]; x.inFlight == Count(OutFlags(x.at))
  {
    RunInv(plan, producers, consumers, es);
    var s := Run(plan, producers, consumers, es);
    assert ProdOk(s, p, s.producers[p]);
  }

  /** `flush` returns true exactly when every block is home; when it returns false, no consumer is left and
      what is missing sits in the forward ring for good. */
  lemma FlushExact(plan: Plan, producers: nat, consumers: nat, es: seq<Event>, p: nat)
    requires consumers > 0 && 0 < plan.blocks <= plan.slots && p < |Run(plan, producers, consumers, es).producers|
    requires Run(plan, producers, consumers, es).producers[p].pc.Flushed?
    ensures var s := Run(plan, producers, consumers, es); var x := s.producers[p]; |x.at| == s.blocks
    ensures var s := Run(plan, producers, consumers, es); var x := s.producers[p];
      x.pc.ok <==> forall b :: 0 <= b < |x.at| ==> x.at[b] == Free
    ensures var s := Run(plan, producers, consumers, es); var x := s.producers[p];
      !x.pc.ok ==> s.live == 0 && x.forward != [] && forall b :: 0 <= b < |x.at| ==> x.at[b] == Free || x.at[b] == Forward
  {
    RunInv(plan, producers, consumers, es);
    var s := Run(plan, producers, consumers, es);
    hide Run;
    var x := s.producers[p];
    assert ProdOk(s, p, x);
    CountExtremes(OutFlags(x.at));
    if x.pc.ok {
      forall b | 0 <= b < |x.at| ensures x.at[b] == Free { assert !OutFlags(x.at)[b]; }
    } else {
      NobodyReads(s);
      forall b | 0 <= b < |x.at| ensures x.at[b] == Free || x.at[b] == Forward {
        assert x.at[b].Lane? ==> Box(x.lanes[x.at[b].c], x.at, x.at[b]);
      }
      var b :| 0 <= b < |x.at| && OutFlags(x.at)[b];
      assert x.at[b] == Forward;
      assert b in x.forward;
    }
  }
}
