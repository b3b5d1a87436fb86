/** The unbounded segmented queue: a chain of fixed-size segments, filled linearly by the producer
    and retired by the consumer; the last endpoint to go walks what is left. */
module Seg {
  import opened Wrappers

  /** `vals` is history: the values published in this segment. */
  datatype Segment<V> = Segment(slots: seq<Option<V>>, linked: bool, consumed: nat, freed: bool, vals: seq<V>)

  datatype TxPc<V> = Ready | Check(v: V) | Room(v: V) | Write(v: V) | Publish(v: V) | Dropped

  /** `left` values are still wanted; `n` of them are known to be published. `Ask*` are the loads of `is_empty`, after the
      producer's flag when it is `is_finished` that asks. */
  datatype RxPc = Idle | Look(left: nat) | LoadNext(left: nat) | StoreHead(left: nat) | Retire(left: nat)
    | LoadPublished(left: nat) | Take(n: nat, left: nat)
    | AskGone | AskPublished(finished: bool) | AskNext(finished: bool) | AskNextPublished(finished: bool)
    | Recorded | Gone | Walk(at: nat, j: nat) | Done

  datatype State<V> = State(
    size: nat, segs: seq<Segment<V>>, head: nat, producerGone: bool, consumerGone: bool,
    tx: TxPc<V>, idx: nat,                       // the producer is always in the last segment
    rx: RxPc, seg: nat, ridx: nat, answer: bool,
    sent: seq<V>, taken: seq<V>, destroyed: seq<V>, fault: bool)    // `sent`: what try_push accepted

  datatype Event<V> = Push(v: V) | Tx | DropTx | Pop(max: nat) | Ask(finished: bool) | Rx | Unwind | DropRx | Free

  function Fresh<V>(size: nat): Segment<V> { Segment(seq(size, _ => None), false, 0, false, []) }

  function Init<V>(size: nat): State<V> {
    State(size, [Fresh(size)], 0, false, false, Ready, 0, Idle, 0, 0, false, [], [], [], false)
  }

  predicate Sized<V>(segs: seq<Segment<V>>, size: nat) {
    forall i :: 0 <= i < |segs| ==> |segs[i].slots| == size
  }

  predicate WellFormed<V>(s: State<V>) {
    s.size > 0 && 0 < |s.segs| && s.seg < |s.segs| && s.head < |s.segs| && Sized(s.segs, s.size)
  }

  /** Every value published, in order. */
  function Flat<V>(segs: seq<Segment<V>>): seq<V> {
    if segs == [] then [] else Flat(segs[..|segs| - 1]) + segs[|segs| - 1].vals
  }

  function Last<V>(s: State<V>): nat
    requires 0 < |s.segs|
  {
    |s.segs| - 1
  }

  function SetSeg<V>(s: State<V>, i: nat, g: Segment<V>): (t: State<V>)
    requires WellFormed(s) && i < |s.segs| && |g.slots| == s.size
    ensures WellFormed(t)
  {
    s.(segs := s.segs[i := g])
  }

  /** A fresh segment is linked behind the full one. */
  function LinkStep<V>(s: State<V>, v: V): (t: State<V>)
    requires WellFormed(s)
    ensures WellFormed(t) && t.size == s.size
  {
    var g := s.segs[Last(s)];
    s.(segs := s.segs[Last(s) := g.(linked := true)] + [Fresh(s.size)], idx := 0, tx := Write(v), fault := s.fault || g.freed)
  }

  function WriteStep<V>(s: State<V>, v: V): (t: State<V>)
    requires WellFormed(s)
    ensures WellFormed(t) && t.size == s.size
  {
    var g := s.segs[Last(s)];
    if s.idx >= s.size || g.freed || g.slots[s.idx].Some? then s.(fault := true)
    else SetSeg(s, Last(s), g.(slots := g.slots[s.idx := Some(v)])).(tx := Publish(v), idx := s.idx + 1)
  }

  function PublishStep<V>(s: State<V>, v: V): (t: State<V>)
    requires WellFormed(s)
    ensures WellFormed(t) && t.size == s.size
  {
    var g := s.segs[Last(s)];
    SetSeg(s, Last(s), g.(vals := g.vals + [v])).(tx := Ready, sent := s.sent + [v], fault := s.fault || g.freed)
  }

  function TxStep<V>(s: State<V>): (t: State<V>)
    requires WellFormed(s)
    ensures WellFormed(t) && t.size == s.size
  {
    match s.tx
    case Check(v) => s.(tx := if s.consumerGone then Ready else Room(v))
    case Room(v) => if s.idx == s.size then LinkStep(s, v) else s.(tx := Write(v))
    case Write(v) => WriteStep(s, v)
    case Publish(v) => PublishStep(s, v)
    case Ready => s
    case Dropped => s
  }

  /** What one load of `is_finished` or `is_empty` decides: the next load or the end, the answer, and whether it touched freed memory. */
  function Asked<V>(s: State<V>): (RxPc, bool, bool)
    requires WellFormed(s)
  {
    var g := s.segs[s.seg];
    match s.rx
    case AskGone => if s.producerGone then (AskPublished(true), s.answer, false) else (Idle, false, false)
    case AskPublished(finished) =>
      if s.ridx < |g.vals| then (Idle, false, g.freed)
      else if s.ridx == s.size then (AskNext(finished), s.answer, g.freed) else (Idle, true, g.freed)
    case AskNext(finished) => if g.linked then (AskNextPublished(finished), s.answer, g.freed) else (Idle, true, g.freed)
    case AskNextPublished(_) =>
      if s.seg + 1 >= |s.segs| then (Idle, false, true) else (Idle, s.segs[s.seg + 1].vals == [], s.segs[s.seg + 1].freed)
    case _ => (s.rx, s.answer, false)
  }

  function AskStep<V>(s: State<V>): (t: State<V>)
    requires WellFormed(s)
    ensures t == s.(rx := t.rx, answer := t.answer, fault := t.fault) && WellFormed(t)
  {
    var a := Asked(s);
    s.(rx := a.0, answer := a.1, fault := s.fault || a.2)
  }

  /** The receiver's steps that move no value. */
  function LookStep<V>(s: State<V>): (t: State<V>)
    requires WellFormed(s)
    ensures t == s.(rx := t.rx, head := t.head, consumerGone := t.consumerGone, fault := t.fault) && WellFormed(t)
  {
    var g := s.segs[s.seg];
    match s.rx
    case Look(left) =>
      s.(rx := if left == 0 then Idle else if s.ridx == s.size then LoadNext(left) else LoadPublished(left))
    case LoadNext(left) => s.(rx := if g.linked then StoreHead(left) else Idle, fault := s.fault || g.freed)
    case StoreHead(left) => if s.seg + 1 < |s.segs| then s.(head := s.seg + 1, rx := Retire(left)) else s.(fault := true)
    case LoadPublished(left) =>
      if s.ridx < |g.vals|
      then s.(rx := Take(if |g.vals| - s.ridx < left then |g.vals| - s.ridx else left, left), fault := s.fault || g.freed)
      else s.(rx := Idle, fault := s.fault || g.freed)
    case Recorded => s.(consumerGone := true, rx := Gone)
    case _ => s
  }

  /** The spent segment is freed and the next one entered. */
  function RetireStep<V>(s: State<V>, left: nat): (t: State<V>)
    requires WellFormed(s)
    ensures WellFormed(t) && t.size == s.size && t.tx == s.tx && t.sent == s.sent && t.taken == s.taken
  {
    var g := s.segs[s.seg];
    if s.seg + 1 < |s.segs|
    then SetSeg(s, s.seg, g.(freed := true)).(seg := s.seg + 1, ridx := 0, rx := Look(left), fault := s.fault || g.freed)
    else s.(fault := true)
  }

  /** One value is moved out. */
  function TakeStep<V>(s: State<V>, n: nat, left: nat): (t: State<V>)
    requires WellFormed(s)
    ensures WellFormed(t) && t.size == s.size && t.tx == s.tx && t.sent == s.sent && s.taken <= t.taken
  {
    var g := s.segs[s.seg];
    if n == 0 || left == 0 then s.(rx := Look(left))
    else if s.ridx >= s.size || g.freed || g.slots[s.ridx].None? then s.(fault := true)
    else SetSeg(s, s.seg, g.(slots := g.slots[s.ridx := None]))
         .(ridx := s.ridx + 1, taken := s.taken + [g.slots[s.ridx].value], rx := Take(n - 1, left - 1))
  }

  function RxStep<V>(s: State<V>): (t: State<V>)
    requires WellFormed(s)
    ensures WellFormed(t) && t.size == s.size && t.tx == s.tx && t.sent == s.sent && s.taken <= t.taken
  {
    if s.rx.AskGone? || Asking(s.rx) then AskStep(s)
    else if s.rx.Retire? then RetireStep(s, s.rx.left)
    else if s.rx.Take? then TakeStep(s, s.rx.n, s.rx.left)
    else LookStep(s)
  }

  /** The teardown walk from the head segment: destroy [consumed, published), then free. */
  function WalkStep<V>(s: State<V>, at: nat, j: nat): (t: State<V>)
    requires WellFormed(s)
    ensures WellFormed(t) && t.size == s.size && t.tx == s.tx && t.sent == s.sent && t.taken == s.taken
  {
    if at >= |s.segs| then s.(rx := Done)
    else
      var g := s.segs[at];
      if j < |g.vals| then
        if j >= s.size || g.freed || g.slots[j].None? then s.(fault := true)
        else SetSeg(s, at, g.(slots := g.slots[j := None]))
             .(destroyed := s.destroyed + [g.slots[j].value], rx := Walk(at, j + 1))
      else SetSeg(s, at, g.(freed := true))
           .(fault := s.fault || g.freed, rx := Walk(at + 1, if at + 1 < |s.segs| then s.segs[at + 1].consumed else 0))
  }

  function FreeStep<V>(s: State<V>): (t: State<V>)
    requires WellFormed(s)
    ensures WellFormed(t) && t.size == s.size && t.tx == s.tx && t.sent == s.sent && t.taken == s.taken
  {
    if s.rx.Gone? then s.(rx := Walk(s.head, s.segs[s.head].consumed))
    else if s.rx.Walk? then WalkStep(s, s.rx.at, s.rx.j)
    else s
  }

  function Step<V>(s: State<V>, e: Event<V>): (t: State<V>)
    requires WellFormed(s)
    ensures WellFormed(t) && t.size == s.size
  {
    match e
    case Push(v) => if s.tx.Ready? then s.(tx := Check(v)) else s
    case Tx => TxStep(s)
    case DropTx => if s.tx.Ready? then s.(producerGone := true, tx := Dropped) else s
    case Pop(max) => if s.rx.Idle? then s.(rx := Look(max)) else s
    case Ask(finished) => if s.rx.Idle? then s.(rx := if finished then AskGone else AskPublished(false)) else s
    case Rx => RxStep(s)
    case Unwind => if s.rx.Take? then s.(rx := Idle) else s
    case DropRx => if s.rx.Idle? then SetSeg(s, s.seg, s.segs[s.seg].(consumed := s.ridx)).(rx := Recorded) else s
    case Free => if s.tx.Dropped? then FreeStep(s) else s
  }

  function Run<V>(size: nat, es: seq<Event<V>>): (s: State<V>)
    requires size > 0
    ensures WellFormed(s) && s.size == size
  {
    if es == [] then Init(size) else Step(Run(size, es[..|es| - 1]), es[|es| - 1])
  }

  // ---- inductive invariant --------------------------------------------------------

  /** A load of `is_empty` is next. */
  predicate Asking(rx: RxPc) { rx.AskPublished? || rx.AskNext? || rx.AskNextPublished? }

  predicate Closed(rx: RxPc) { rx.Recorded? || rx.Gone? || rx.Walk? || rx.Done? }

  /** How many leading values of segment `i` have been moved out. */
  function MovedOut<V>(s: State<V>, i: nat): nat
    requires i < |s.segs|
  {
    if s.rx.Done? || i < s.seg || (s.rx.Walk? && i < s.rx.at) then |s.segs[i].vals|
    else if s.rx.Walk? && i == s.rx.at then s.rx.j
    else if i == s.seg then s.ridx else 0
  }

  /** What slot `j` of segment `i` must hold. */
  ghost function Content<V>(s: State<V>, i: nat, j: nat): Option<V>
    requires i < |s.segs|
  {
    var vals := s.segs[i].vals;
    if j < MovedOut(s, i) then None
    else if j < |vals| then Some(vals[j])
    else if s.tx.Publish? && i == |s.segs| - 1 && j == |vals| then Some(s.tx.v) else None
  }

  ghost predicate SlotsOk<V>(s: State<V>, i: nat)
    requires WellFormed(s) && i < |s.segs|
  {
    forall j :: 0 <= j < s.size ==> s.segs[i].slots[j] == Content(s, i, j)
  }

  ghost predicate SegInv<V>(s: State<V>, i: nat)
    requires WellFormed(s) && i < |s.segs|
  {
    var g := s.segs[i];
    && MovedOut(s, i) <= |g.vals| <= s.size
    && (g.linked <==> i < Last(s))
    && (i < Last(s) ==> |g.vals| == s.size)
    && (i == Last(s) ==> |g.vals| + (if s.tx.Publish? then 1 else 0) == s.idx <= s.size)
    && SlotsOk(s, i)
    && (g.freed <==> i < s.seg || (s.rx.Walk? && i < s.rx.at) || s.rx.Done?)
    && g.consumed == if Closed(s.rx) && i == s.seg then s.ridx else 0
  }

  /** Everything up to value `j` of segment `i`. */
  ghost function Upto<V>(segs: seq<Segment<V>>, i: nat, j: nat): seq<V>
    requires i < |segs| ==> j <= |segs[i].vals|
  {
    if i < |segs| then Flat(segs[..i]) + segs[i].vals[..j] else Flat(segs)
  }

  ghost predicate Pcs<V>(s: State<V>) {
    && WellFormed(s)
    && (s.head == if s.rx.Retire? then s.seg + 1 else s.seg)
    && s.ridx <= |s.segs[s.seg].vals|
    && (s.rx.LoadNext? || s.rx.StoreHead? || s.rx.Retire? ==> s.ridx == s.size)
    && (s.rx.LoadPublished? ==> s.ridx < s.size)
    && (s.rx.StoreHead? || s.rx.Retire? || s.rx.AskNextPublished? ==> s.seg < Last(s))
    && (s.rx.AskNext? || s.rx.AskNextPublished? ==> s.ridx == s.size)
    && (Asking(s.rx) && s.rx.finished ==> s.producerGone)
    && (s.rx.Take? ==> s.ridx + s.rx.n <= |s.segs[s.seg].vals| && s.rx.n <= s.rx.left)
    && (s.tx.Write? ==> s.idx < s.size)
    && (s.tx.Dropped? <==> s.producerGone)
    && (s.consumerGone ==> Closed(s.rx))
    && (s.rx.Walk? || s.rx.Done? ==> s.tx.Dropped?)
    && (s.rx.Walk? ==> s.seg <= s.rx.at <= |s.segs| && (s.rx.at < |s.segs| ==> s.rx.j <= |s.segs[s.rx.at].vals|))
  }

  ghost predicate Account<V>(s: State<V>)
    requires Pcs(s)
  {
    && s.sent == Flat(s.segs)
    && s.taken == Upto(s.segs, s.seg, s.ridx)
    && (s.taken + s.destroyed == if s.rx.Done? then Flat(s.segs) else if s.rx.Walk? then Upto(s.segs, s.rx.at, s.rx.j) else s.taken)
  }

  ghost predicate Inv<V>(s: State<V>) {
    && Pcs(s) && !s.fault && Account(s)
    && forall i :: 0 <= i < |s.segs| ==> SegInv(s, i)
  }

  lemma {:induction false} FlatSame<V>(a: seq<Segment<V>>, b: seq<Segment<V>>)
    requires |a| == |b| && forall i :: 0 <= i < |a| ==> a[i].vals == b[i].vals
    ensures Flat(a) == Flat(b)
  {
    if a != [] { FlatSame(a[..|a| - 1], b[..|b| - 1]); }
  }

  lemma {:induction false} FlatPrefix<V>(segs: seq<Segment<V>>, i: nat)
    requires i < |segs|
    ensures Flat(segs[..i]) + segs[i].vals == Flat(segs[..i + 1]) <= Flat(segs)
  {
    assert segs[..i + 1][..i] == segs[..i];
    if i + 1 < |segs| {
      FlatPrefix(segs[..|segs| - 1], i);
      assert segs[..|segs| - 1][..i] == segs[..i] && segs[..|segs| - 1][..i + 1] == segs[..i + 1];
    } else {
      assert segs[..i + 1] == segs;
    }
  }

  lemma UptoPrefix<V>(segs: seq<Segment<V>>, i: nat, j: nat)
    requires i < |segs| ==> j <= |segs[i].vals|
    ensures Upto(segs, i, j) <= Flat(segs)
  {
    if i < |segs| {
      FlatPrefix(segs, i);
      assert segs[i].vals == segs[i].vals[..j] + segs[i].vals[j..];
    }
  }

  /** Steps that touch no published value leave every partial total alone. */
  lemma UptoSame<V>(a: seq<Segment<V>>, b: seq<Segment<V>>, i: nat, j: nat)
    requires |a| == |b| && forall k :: 0 <= k < |a| ==> a[k].vals == b[k].vals
    requires i < |a| ==> j <= |a[i].vals|
    ensures Upto(a, i, j) == Upto(b, i, j) && Flat(a) == Flat(b)
  {
    FlatSame(a, b);
    if i < |a| { FlatSame(a[..i], b[..i]); }
  }

  ghost predicate SamePending<V>(s: State<V>, t: State<V>, i: nat) {
    s.size == t.size && (s.tx.Publish? && i == |s.segs| - 1) == (t.tx.Publish? && i == |t.segs| - 1)
      && (t.tx.Publish? && s.tx.Publish? ==> s.tx == t.tx)
  }

  lemma SlotsFrame<V>(s: State<V>, t: State<V>, i: nat)
    requires WellFormed(s) && WellFormed(t) && i < |s.segs| && i < |t.segs| && SlotsOk(s, i) && SamePending(s, t, i)
    requires t.segs[i].slots == s.segs[i].slots && t.segs[i].vals == s.segs[i].vals && MovedOut(t, i) == MovedOut(s, i)
    ensures SlotsOk(t, i)
  {
    assert forall j :: 0 <= j < t.size ==> Content(t, i, j) == Content(s, i, j);
  }

  lemma SlotsTaken<V>(s: State<V>, t: State<V>, i: nat, j: nat)
    requires WellFormed(s) && WellFormed(t) && i < |s.segs| && i < |t.segs| && SlotsOk(s, i) && SamePending(s, t, i)
    requires j < |s.segs[i].vals| && j < s.size && MovedOut(s, i) == j && MovedOut(t, i) == j + 1
    requires t.segs[i].vals == s.segs[i].vals && t.segs[i].slots == s.segs[i].slots[j := None]
    ensures SlotsOk(t, i)
  {
    assert forall k :: 0 <= k < t.size ==> Content(t, i, k) == if k == j then None else Content(s, i, k);
  }

  /** A step of the consumer or of the walk between pcs that mean the same to every segment. */
  lemma SegsKept<V>(s: State<V>, t: State<V>)
    requires Inv(s) && WellFormed(t) && t.segs == s.segs && t.size == s.size && t.idx == s.idx
    requires t.tx.Publish? == s.tx.Publish? && (t.tx.Publish? ==> t.tx == s.tx)
    requires t.seg == s.seg && t.ridx == s.ridx && Closed(t.rx) == Closed(s.rx)
    requires t.rx == s.rx || (!t.rx.Walk? && !t.rx.Done? && !s.rx.Walk? && !s.rx.Done?)
    ensures forall i :: 0 <= i < |t.segs| ==> SegInv(t, i)
  {
    hide Flat, Upto, Account;
    hide SlotsOk, Content;
    forall i | 0 <= i < |t.segs| ensures SegInv(t, i) {
      assert SegInv(s, i);
      assert MovedOut(t, i) == MovedOut(s, i);
      SlotsFrame(s, t, i);
    }
  }

  lemma RoomKeeps<V>(s: State<V>)
    requires Inv(s) && s.tx.Room? && s.idx == s.size
    ensures Inv(TxStep(s))
  {
    var t := TxStep(s);
    var l := Last(s);
    FlatSame(s.segs, t.segs[..l + 1]);
    assert Flat(t.segs) == Flat(t.segs[..l + 1]) + [];
    hide Flat;
    assert SegInv(s, l) && SegInv(s, s.seg);
    assert s.segs[..s.seg] == t.segs[..s.seg];
    assert s.taken == Upto(t.segs, s.seg, s.ridx);
    assert Account(t);
    hide Upto, Account;
    forall i | 0 <= i < |t.segs| ensures SegInv(t, i) {
      if i <= l {
        assert SegInv(s, i);
        assert MovedOut(t, i) == MovedOut(s, i);
        SlotsFrame(s, t, i);
      } else {
        assert MovedOut(t, i) == 0;
        assert forall j :: 0 <= j < s.size ==> Content(t, i, j) == None;
      }
    }
  }

  lemma WriteSegs<V>(s: State<V>, t: State<V>, v: V)
    requires Inv(s) && WellFormed(t) && s.tx == Write(v) && t.tx == Publish(v)
    requires var g := s.segs[Last(s)]; s.idx < s.size && t.segs == s.segs[Last(s) := g.(slots := g.slots[s.idx := Some(v)])]
    requires t.size == s.size && t.rx == s.rx && t.seg == s.seg && t.ridx == s.ridx && t.idx == s.idx + 1
    ensures forall i :: 0 <= i < |t.segs| ==> SegInv(t, i)
  {
    assert WellFormed(s);
    hide Flat, Upto, Account, Pcs;
    forall i | 0 <= i < |t.segs| ensures SegInv(t, i) {
      assert SegInv(s, i);
      assert MovedOut(t, i) == MovedOut(s, i);
      if i == Last(s) {
        assert forall j :: 0 <= j < s.size ==> Content(t, i, j) == if j == s.idx then Some(v) else Content(s, i, j);
      } else {
        SlotsFrame(s, t, i);
      }
    }
  }

  lemma WriteKeeps<V>(s: State<V>)
    requires Inv(s) && s.tx.Write?
    ensures Inv(TxStep(s))
  {
    var t := TxStep(s);
    var l := Last(s);
    assert SegInv(s, l);
    assert s.segs[l].slots[s.idx] == Content(s, l, s.idx) == None;
    WriteSegs(s, t, s.tx.v);
    UptoSame(s.segs, t.segs, s.seg, s.ridx);
    hide Upto, Flat, SegInv;
  }

  lemma PublishKeeps<V>(s: State<V>)
    requires Inv(s) && s.tx.Publish?
    ensures Inv(TxStep(s))
  {
    var t := TxStep(s);
    var l := Last(s);
    assert s.segs[..l] == t.segs[..l];
    assert Flat(t.segs) == Flat(s.segs) + [s.tx.v];
    hide Flat;
    assert SegInv(s, l) && SegInv(s, s.seg);
    assert s.segs[..s.seg] == t.segs[..s.seg];
    assert t.segs[s.seg].vals[..s.ridx] == s.segs[s.seg].vals[..s.ridx];
    assert Account(t);
    hide Upto, Account;
    forall i | 0 <= i < |t.segs| ensures SegInv(t, i) {
      assert SegInv(s, i);
      assert MovedOut(t, i) == MovedOut(s, i);
      if i == l {
        assert forall j :: 0 <= j < s.size ==> Content(t, i, j) == Content(s, i, j);
      } else {
        SlotsFrame(s, t, i);
      }
    }
  }

  lemma TxKeeps<V>(s: State<V>)
    requires Inv(s)
    ensures Inv(TxStep(s))
  {
    var t := TxStep(s);
    if s.tx.Room? && s.idx == s.size { RoomKeeps(s); }
    else if s.tx.Write? { WriteKeeps(s); }
    else if s.tx.Publish? { PublishKeeps(s); }
    else {
      assert SegInv(s, Last(s));
      SegsKept(s, t);
      hide Flat, SegInv;
    }
  }

  lemma UptoNext<V>(segs: seq<Segment<V>>, i: nat)
    requires i < |segs|
    ensures Upto(segs, i, |segs[i].vals|) == Upto(segs, i + 1, 0)
  {
    FlatPrefix(segs, i);
    if i + 1 == |segs| { assert segs[..i + 1] == segs; }
  }

  lemma RetireKeeps<V>(s: State<V>)
    requires Inv(s) && s.rx.Retire?
    ensures Inv(RxStep(s))
  {
    hide Flat, Upto, SlotsOk, Content;
    var t := RxStep(s);
    assert SegInv(s, s.seg) && SegInv(s, s.seg + 1);
    assert t.segs == s.segs[s.seg := s.segs[s.seg].(freed := true)] && t.seg == s.seg + 1 && t.ridx == 0;
    UptoNext(s.segs, s.seg);
    UptoSame(s.segs, t.segs, t.seg, 0);
    assert Pcs(t) && Account(t);
    hide Account, Pcs;
    forall i | 0 <= i < |t.segs| ensures SegInv(t, i) {
      assert SegInv(s, i);
      assert MovedOut(t, i) == MovedOut(s, i);
      SlotsFrame(s, t, i);
    }
  }

  lemma TakeAccounts<V>(s: State<V>)
    requires Inv(s) && s.rx.Take? && s.rx.n > 0
    ensures var t := RxStep(s); Pcs(t) && !t.fault && Account(t)
    ensures var t, g := RxStep(s), s.segs[s.seg];
      t.segs == s.segs[s.seg := g.(slots := g.slots[s.ridx := None])] && t.ridx == s.ridx + 1
  {
    var t := RxStep(s);
    var g := s.segs[s.seg];
    assert SegInv(s, s.seg);
    assert g.slots[s.ridx] == Content(s, s.seg, s.ridx) == Some(g.vals[s.ridx]);
    hide SegInv, SlotsOk, Content;
    assert g.vals[..s.ridx + 1] == g.vals[..s.ridx] + [g.vals[s.ridx]];
    FlatSame(s.segs[..s.seg], t.segs[..s.seg]);
    FlatSame(s.segs, t.segs);
    hide Flat;
  }

  lemma TakeKeeps<V>(s: State<V>)
    requires Inv(s) && s.rx.Take? && s.rx.n > 0
    ensures Inv(RxStep(s))
  {
    hide Flat, Upto, Account, SlotsOk, Content;
    var t := RxStep(s);
    TakeAccounts(s);
    assert t.rx.Take? && t.seg == s.seg && t.tx == s.tx && t.idx == s.idx && t.size == s.size;
    assert WellFormed(s);
    hide RxStep;
    forall i | 0 <= i < |t.segs| ensures SegInv(t, i) {
      assert SegInv(s, i);
      assert MovedOut(t, i) == MovedOut(s, i) + if i == s.seg then 1 else 0;
      if i == s.seg { SlotsTaken(s, t, i, s.ridx); } else { SlotsFrame(s, t, i); }
    }
  }

  lemma AskKeeps<V>(s: State<V>)
    requires Inv(s) && (s.rx.AskGone? || Asking(s.rx))
    ensures Inv(RxStep(s))
  {
    hide Flat, Upto, SlotsOk, Content;
    var t := AskStep(s);
    assert SegInv(s, s.seg);
    var g := s.segs[s.seg];
    assert !g.freed && (g.linked <==> s.seg < Last(s)) && |g.vals| <= s.size;
    if s.seg + 1 < |s.segs| { assert SegInv(s, s.seg + 1); }
    assert s.rx.AskNextPublished? ==> !s.segs[s.seg + 1].freed;
    hide SegInv, MovedOut;
    assert Pcs(t) && !t.fault && Account(t);
    hide Pcs, Account, AskStep;
    SegsKept(s, t);
  }

  lemma QuietKeeps<V>(s: State<V>)
    requires Inv(s) && !s.rx.Retire? && !(s.rx.Take? && s.rx.n > 0) && !s.rx.AskGone? && !Asking(s.rx)
    ensures Inv(RxStep(s))
  {
    hide Flat, Upto, SlotsOk, Content;
    var t := RxStep(s);
    assert SegInv(s, s.seg);
    var g := s.segs[s.seg];
    assert (Closed(s.rx) || !g.freed) && (g.linked <==> s.seg < Last(s)) && |g.vals| <= s.size;
    hide SegInv, MovedOut;
    assert t.segs == s.segs && t.seg == s.seg && t.ridx == s.ridx && t.tx == s.tx;
    assert Pcs(t) && !t.fault && Account(t);
    hide Pcs, Account;
    SegsKept(s, t);
  }

  lemma RxKeeps<V>(s: State<V>)
    requires Inv(s)
    ensures Inv(RxStep(s))
  {
    hide Inv, RxStep;
    if s.rx.Retire? { RetireKeeps(s); }
    else if s.rx.Take? && s.rx.n > 0 { TakeKeeps(s); }
    else if s.rx.AskGone? || Asking(s.rx) { AskKeeps(s); }
    else { QuietKeeps(s); }
  }

  lemma DestroyAccounts<V>(s: State<V>, at: nat, j: nat)
    requires Inv(s) && s.rx == Walk(at, j) && at < |s.segs| && j < |s.segs[at].vals|
    ensures var t := FreeStep(s); Pcs(t) && !t.fault && Account(t)
  {
    hide Flat;
    var t := FreeStep(s);
    var g := s.segs[at];
    assert SegInv(s, at) && SegInv(s, s.seg);
    assert g.slots[j] == Content(s, at, j) == Some(g.vals[j]);
    assert g.vals[..j + 1] == g.vals[..j] + [g.vals[j]];
    FlatSame(s.segs[..at], t.segs[..at]);
    UptoSame(s.segs, t.segs, s.seg, s.ridx);
    assert s.taken + t.destroyed == (s.taken + s.destroyed) + [g.vals[j]];
    assert Upto(t.segs, at, j + 1) == Upto(s.segs, at, j) + [g.vals[j]];
  }

  lemma DestroyKeeps<V>(s: State<V>, at: nat, j: nat)
    requires Inv(s) && s.rx == Walk(at, j) && at < |s.segs| && j < |s.segs[at].vals|
    ensures Inv(FreeStep(s))
  {
    var t := FreeStep(s);
    DestroyAccounts(s, at, j);
    hide Flat, Upto, Account;
    var g := s.segs[at];
    assert SegInv(s, at);
    assert g.slots[j] == Content(s, at, j) == Some(g.vals[j]);
    assert t.segs == s.segs[at := g.(slots := g.slots[j := None])] && t.rx == Walk(at, j + 1);
    assert t.seg == s.seg && t.ridx == s.ridx && t.tx == s.tx && t.idx == s.idx && t.size == s.size;
    hide FreeStep, Pcs;
    hide SlotsOk, Content;
    forall i | 0 <= i < |t.segs| ensures SegInv(t, i) {
      assert SegInv(s, i);
      assert MovedOut(t, i) == MovedOut(s, i) + if i == at then 1 else 0;
      if i == at { SlotsTaken(s, t, i, j); } else { SlotsFrame(s, t, i); }
    }
  }

  lemma NextAccounts<V>(s: State<V>, at: nat, j: nat)
    requires Inv(s) && s.rx == Walk(at, j) && at < |s.segs| && j == |s.segs[at].vals|
    ensures var t := FreeStep(s); Pcs(t) && !t.fault && Account(t)
  {
    hide Flat, Upto, SlotsOk, Content;
    var t := FreeStep(s);
    assert SegInv(s, at) && SegInv(s, s.seg);
    if at + 1 < |s.segs| { assert SegInv(s, at + 1); }
    hide SegInv;
    assert t.rx == Walk(at + 1, 0);
    UptoNext(s.segs, at);
    UptoSame(s.segs, t.segs, at + 1, 0);
    UptoSame(s.segs, t.segs, s.seg, s.ridx);
  }

  lemma NextSegs<V>(s: State<V>, t: State<V>, at: nat)
    requires Inv(s) && WellFormed(t) && at < |s.segs| && s.rx == Walk(at, |s.segs[at].vals|)
    requires t == s.(segs := s.segs[at := s.segs[at].(freed := true)], rx := Walk(at + 1, 0))
    ensures forall i :: 0 <= i < |t.segs| ==> SegInv(t, i)
  {
    hide Flat, Upto, Account, SlotsOk, Content;
    forall i | 0 <= i < |t.segs| ensures SegInv(t, i) {
      assert SegInv(s, i);
      assert MovedOut(t, i) == MovedOut(s, i);
      SlotsFrame(s, t, i);
    }
  }

  lemma NextKeeps<V>(s: State<V>, at: nat, j: nat)
    requires Inv(s) && s.rx == Walk(at, j) && at < |s.segs| && j == |s.segs[at].vals|
    ensures Inv(FreeStep(s))
  {
    hide Flat, Upto, Account, SlotsOk, Content;
    var t := FreeStep(s);
    NextAccounts(s, at, j);
    assert SegInv(s, at);
    if at + 1 < |s.segs| { assert SegInv(s, at + 1); }
    hide SegInv, Pcs;
    NextSegs(s, t, at);
  }

  lemma FreeKeeps<V>(s: State<V>)
    requires Inv(s) && s.tx.Dropped?
    ensures Inv(FreeStep(s))
  {
    hide Flat;
    var t := FreeStep(s);
    if s.rx.Walk? && s.rx.at < |s.segs| {
      if s.rx.j < |s.segs[s.rx.at].vals| { DestroyKeeps(s, s.rx.at, s.rx.j); } else { NextKeeps(s, s.rx.at, s.rx.j); }
    } else {
      assert SegInv(s, s.seg);
      forall i | 0 <= i < |t.segs| ensures SegInv(t, i) {
        assert SegInv(s, i);
        assert MovedOut(t, i) == MovedOut(s, i);
        SlotsFrame(s, t, i);
      }
    }
  }

  lemma DropKeeps<V>(s: State<V>)
    requires Inv(s) && s.rx.Idle?
    ensures Inv(Step(s, DropRx))
  {
    var t := Step(s, DropRx);
    UptoSame(s.segs, t.segs, s.seg, s.ridx);
    hide Flat, Upto;
    hide SlotsOk, Content;
    forall i | 0 <= i < |t.segs| ensures SegInv(t, i) {
      assert SegInv(s, i);
      assert MovedOut(t, i) == MovedOut(s, i);
      SlotsFrame(s, t, i);
    }
  }

  /** Calls, the producer's drop and an unwinding drain touch no segment. */
  lemma CallKeeps<V>(s: State<V>, e: Event<V>)
    requires Inv(s) && !e.Tx? && !e.Rx? && !e.Free? && !e.DropRx?
    ensures Inv(Step(s, e))
  {
    hide Flat, Upto, SegInv, TxStep, RxStep, FreeStep;
    SegsKept(s, Step(s, e));
  }

  lemma StepKeeps<V>(s: State<V>, e: Event<V>)
    requires Inv(s)
    ensures Inv(Step(s, e))
  {
    assert WellFormed(s);
    hide Inv, TxStep, RxStep, FreeStep;
    if e.Tx? { TxKeeps(s); }
    else if e.Rx? { RxKeeps(s); }
    else if e.Free? { if s.tx.Dropped? { FreeKeeps(s); } }
    else if e.DropRx? { if s.rx.Idle? { DropKeeps(s); } }
    else { CallKeeps(s, e); }
  }

  lemma {:induction false} RunInv<V>(size: nat, es: seq<Event<V>>)
    requires size > 0
    ensures Inv(Run(size, es))
  {
    if es == [] {
      var s := Init<V>(size);
      assert s.segs[..0] == [];
      forall i | 0 <= i < |s.segs| ensures SegInv(s, i) { }
    } else {
      RunInv(size, es[..|es| - 1]);
      StepKeeps(Run(size, es[..|es| - 1]), es[|es| - 1]);
    }
  }

  // ---- theorems -------------------------------------------------------------------

  /** First in, first out, and no step ever touches a freed segment or an uninitialised slot, or frees twice. */
  lemma Fifo<V>(size: nat, es: seq<Event<V>>)
    requires size > 0
    ensures var s := Run(size, es); !s.fault && s.taken + s.destroyed <= s.sent
  {
    RunInv(size, es);
    var s := Run(size, es);
    hide Flat, Run, Upto, SegInv;
    UptoPrefix(s.segs, s.seg, s.ridx);
    if s.rx.Walk? { UptoPrefix(s.segs, s.rx.at, s.rx.j); }
  }

  /** Once both endpoints are gone, each value sent was handed out or destroyed exactly once, and every segment freed. */
  lemma OwnedOnce<V>(size: nat, es: seq<Event<V>>)
    requires size > 0
    ensures var s := Run(size, es); s.rx.Done? ==>
      && s.taken + s.destroyed == s.sent
      && forall i :: 0 <= i < |s.segs| ==> s.segs[i].freed && forall j :: 0 <= j < size ==> s.segs[i].slots[j].None?
  {
    RunInv(size, es);
    var s := Run(size, es);
    forall i | s.rx.Done? && 0 <= i < |s.segs|
      ensures s.segs[i].freed && forall j :: 0 <= j < size ==> s.segs[i].slots[j].None?
    {
      assert SegInv(s, i);
    }
  }

  /** The emptiness test is exact at the load that decides it, whatever the producer did between its loads. */
  lemma EmptyIsExact<V>(size: nat, es: seq<Event<V>>)
    requires size > 0 && Asking(Run(size, es).rx) && Step(Run(size, es), Rx).rx.Idle?
    ensures var t := Step(Run(size, es), Rx); t.answer <==> t.taken == t.sent
  {
    hide Run, Inv, Step;
    RunInv(size, es);
    EmptyAt(Run(size, es));
  }

  /** `is_finished` never reports early: after it answers true, nothing is sent or handed out any more, whatever happens. */
  lemma FinishedIsFinal<V>(size: nat, es: seq<Event<V>>, more: seq<Event<V>>)
    requires size > 0 && Asking(Run(size, es).rx) && Run(size, es).rx.finished
    requires Step(Run(size, es), Rx).rx.Idle? && Step(Run(size, es), Rx).answer
    ensures var t := Run(size, es); var u := Run(size, (es + [Rx]) + more); t.taken == t.sent == u.sent == u.taken
  {
    var now := es + [Rx];
    assert now[..|es|] == es;
    assert Run(size, now) == Step(Run(size, es), Rx);
    hide Run, Inv;
    RunInv(size, es);
    EmptyIsExact(size, es);
    assert Run(size, es).tx.Dropped? by { assert Inv(Run(size, es)); DroppedWhenGone(Run(size, es)); }
    NothingMore(size, now, more);
  }

  lemma DroppedWhenGone<V>(s: State<V>)
    requires Inv(s) && Asking(s.rx) && s.rx.finished
    ensures s.tx.Dropped? && Step(s, Rx).tx == s.tx && Step(s, Rx).sent == s.sent && Step(s, Rx).taken == s.taken
  {
    hide SegInv, Account;
  }

  lemma DroppedStays<V>(s: State<V>, e: Event<V>)
    requires WellFormed(s) && s.tx.Dropped?
    ensures Step(s, e).tx.Dropped? && Step(s, e).sent == s.sent && s.taken <= Step(s, e).taken
  {
    hide RxStep, FreeStep, TxStep, WellFormed;
    DroppedRests(s);
  }

  lemma DroppedRests<V>(s: State<V>)
    requires WellFormed(s) && s.tx.Dropped?
    ensures TxStep(s) == s
  {
  }

  lemma {:induction false} NothingMore<V>(size: nat, es: seq<Event<V>>, more: seq<Event<V>>)
    requires size > 0 && Run(size, es).tx.Dropped? && Run(size, es).taken == Run(size, es).sent
    ensures var u := Run(size, es + more); u.tx.Dropped? && u.sent == Run(size, es).sent == u.taken
    decreases |more|
  {
    if more == [] {
      assert es + more == es;
    } else {
      var l := |more| - 1;
      NothingMore(size, es, more[..l]);
      var all := es + more;
      assert all[..|all| - 1] == es + more[..l];
      assert Run(size, all) == Step(Run(size, es + more[..l]), more[l]);
      hide Run, Step;
      DroppedStays(Run(size, es + more[..l]), more[l]);
      Fifo(size, all);
    }
  }

  /** How much was published up to and including the segment after `i`. */
  lemma FlatLength<V>(segs: seq<Segment<V>>, i: nat)
    requires i < |segs|
    ensures |Flat(segs)| >= |Flat(segs[..i])| + |segs[i].vals|
    ensures i + 1 == |segs| ==> |Flat(segs)| == |Flat(segs[..i])| + |segs[i].vals|
    ensures i + 1 < |segs| ==> |Flat(segs)| >= |Flat(segs[..i])| + |segs[i].vals| + |segs[i + 1].vals|
    ensures i + 2 == |segs| ==> |Flat(segs)| == |Flat(segs[..i])| + |segs[i].vals| + |segs[i + 1].vals|
  {
    FlatPrefix(segs, i);
    if i + 1 == |segs| {
      assert segs[..i + 1] == segs;
    } else {
      FlatPrefix(segs, i + 1);
      if i + 2 == |segs| { assert segs[..i + 2] == segs; }
    }
  }

  lemma EmptyAt<V>(s: State<V>)
    requires Inv(s) && Asking(s.rx) && Step(s, Rx).rx.Idle?
    ensures var t := Step(s, Rx); t.taken == s.taken && t.sent == s.sent && (t.answer <==> t.taken == t.sent)
  {
    hide SlotsOk, Content, Flat;
    var (i, g) := (s.seg, s.segs[s.seg]);
    assert SegInv(s, i);
    if i + 1 < |s.segs| { assert SegInv(s, i + 1); }
    FlatLength(s.segs, i);
    UptoPrefix(s.segs, i, s.ridx);
    assert s.taken == s.sent[..|s.taken|] && |s.taken| == |Flat(s.segs[..i])| + s.ridx;
    assert s.taken == s.sent <==> |s.taken| == |s.sent|;
    hide Upto, Account;
  }
}
