/** A fixed pool of producer slots behind one bitmap. Claiming takes a bit and then the sender in its slot; the
    receiver drains a dropped producer's ring, resets it, puts a fresh sender back and sets the bit. */
module Pool {
  import opened Items

  /** History: who holds ring i's only sender. */
  datatype Place = Free | Reserved(c: nat) | Holding(c: nat) | With(p: nat) | TxGone(p: nat) | Spent | Reset | Written

  /** `owner` is the latest producer of the ring, if any. */
  datatype Ring<V> = Ring(queue: seq<V>, gone: bool, hasOwner: bool, owner: nat)

  datatype Stage = Live | FlagSet | ArcGone | Released

  datatype Producer<V> = Producer(ring: nat, stage: Stage, sent: seq<V>)

  /** One call of `claim` through handle `h`. */
  datatype ClaimPc = Load | Cas(cur: seq<bool>) | TakeSlot(i: nat) | Hold(i: nat) | Answered

  datatype Claimer = Claimer(h: nat, pc: ClaimPc)

  datatype Pc = Idle | Entry | Pass(k: nat) | Check(k: nat, i: nat) | WriteSlot(k: nat, i: nat) | SetBit(k: nat, i: nat) | CheckLive | Finished

  /** `start` is history: the cursor when the current pass began. */
  datatype Receiver<V> = Receiver(
    cursor: nat, start: nat, batch: nat, staging: seq<Item<V>>, out: seq<Item<V>>, pc: Pc, kind: Kind, pushed: nat, last: bool)

  /** `word` is the number of values of the cursor's machine word. */
  datatype State<V> = State(
    n: nat, cap: nat, word: nat, free: seq<bool>, slots: seq<bool>, rings: seq<Ring<V>>, at: seq<Place>,
    handles: seq<bool>, claimers: seq<Claimer>, producers: seq<Producer<V>>, live: int, rx: Receiver<V>, fault: bool)

  datatype Event<V> =
    | CloneHandle(h: nat) | DropHandle(h: nat) | StartClaim(h: nat) | Claim(c: nat, spurious: bool)
    | Send(p: nat, v: V) | DropTx(p: nat) | DropArc(p: nat) | ReleaseLive(p: nat)
    | SetBatch(limit: nat) | Call(kind: Kind) | Go(j: nat)

  function Init<V>(n: nat, cap: nat, word: nat): State<V> {
    State(n, cap, word, seq(n, _ => true), seq(n, _ => true), seq(n, _ => Ring([], false, false, 0)), seq(n, _ => Free),
          [true], [], [], 1, Receiver(0, 0, 64, [], [], Idle, TryRecv, 0, false), false)
  }

  /** The lowest set bit, as trailing_zeros finds it. */
  function Lowest(b: seq<bool>): (i: nat)
    ensures i <= |b| && (i < |b| ==> b[i]) && forall j :: 0 <= j < i ==> !b[j]
  {
    if b == [] then 0 else if b[0] then 0 else
      var i := Lowest(b[1..]);
      assert forall j :: 0 < j < i + 1 ==> b[j] == b[1..][j - 1];
      i + 1
  }

  predicate WellFormed<V>(s: State<V>) {
    0 < s.n < s.word && |s.free| == s.n && |s.slots| == s.n && |s.rings| == s.n && |s.at| == s.n
  }

  function SetClaimer<V>(s: State<V>, c: nat, pc: ClaimPc): State<V>
    requires c < |s.claimers|
  {
    s.(claimers := s.claimers[c := s.claimers[c].(pc := pc)])
  }

  function ClaimStep<V>(s: State<V>, c: nat, spurious: bool): (t: State<V>)
    requires WellFormed(s) && c < |s.claimers|
    ensures WellFormed(t) && t.n == s.n && t.word == s.word
  {
    match s.claimers[c].pc
    case Load => SetClaimer(s, c, if Lowest(s.free) == |s.free| then Answered else Cas(s.free))
    case Cas(cur) =>
      var i := Lowest(cur);
      if cur != s.free || spurious || i >= |s.free| || i >= |s.at| then SetClaimer(s, c, Load)
      else SetClaimer(s, c, TakeSlot(i)).(free := s.free[i := false], at := s.at[i := Reserved(c)])
    case TakeSlot(i) =>
      if i >= |s.slots| || i >= |s.at| || !s.slots[i] then s.(fault := true)
      else SetClaimer(s, c, Hold(i)).(slots := s.slots[i := false], at := s.at[i := Holding(c)])
    case Hold(i) =>
      if i >= |s.rings| || i >= |s.at| then s.(fault := true)
      else
        var p := |s.producers|;
        SetClaimer(s, c, Answered).(
          live := s.live + 1, producers := s.producers + [Producer(i, Live, [])],
          rings := s.rings[i := s.rings[i].(hasOwner := true, owner := p)], at := s.at[i := With(p)])
    case Answered => s
  }

  /** Handles; a handle outlives the claims made through it. */
  function HandleStep<V>(s: State<V>, e: Event<V>): (t: State<V>)
    requires WellFormed(s)
    ensures WellFormed(t) && t.n == s.n && t.word == s.word
  {
    match e
    case CloneHandle(h) =>
      if h < |s.handles| && s.handles[h] then s.(handles := s.handles + [true], live := s.live + 1) else s
    case DropHandle(h) =>
      if h < |s.handles| && s.handles[h] && (forall c :: 0 <= c < |s.claimers| && !s.claimers[c].pc.Answered? ==> s.claimers[c].h != h)
      then s.(handles := s.handles[h := false], live := s.live - 1) else s
    case StartClaim(h) =>
      if h < |s.handles| && s.handles[h] then s.(claimers := s.claimers + [Claimer(h, Load)]) else s
    case _ => s
  }

  function SetStage<V>(s: State<V>, p: nat, stage: Stage): State<V>
    requires p < |s.producers|
  {
    s.(producers := s.producers[p := s.producers[p].(stage := stage)])
  }

  function ProducerStep<V>(s: State<V>, e: Event<V>): (t: State<V>)
    requires WellFormed(s)
    ensures WellFormed(t) && t.n == s.n && t.word == s.word
  {
    match e
    case Send(p, v) =>
      if p < |s.producers| && s.producers[p].stage.Live? && s.producers[p].ring < s.n && |s.rings[s.producers[p].ring].queue| < s.cap then
        var x := s.producers[p];
        s.(rings := s.rings[x.ring := s.rings[x.ring].(queue := s.rings[x.ring].queue + [v])], producers := s.producers[p := x.(sent := x.sent + [v])])
      else s
    case DropTx(p) =>
      if p < |s.producers| && s.producers[p].stage.Live? && s.producers[p].ring < s.n then
        var i := s.producers[p].ring;
        SetStage(s, p, FlagSet).(rings := s.rings[i := s.rings[i].(gone := true)], at := s.at[i := TxGone(p)])
      else s
    case DropArc(p) =>
      if p < |s.producers| && s.producers[p].stage.FlagSet? && s.producers[p].ring < s.n
      then SetStage(s, p, ArcGone).(at := s.at[s.producers[p].ring := Spent]) else s
    case ReleaseLive(p) =>
      if p < |s.producers| && s.producers[p].stage.ArcGone? then SetStage(s, p, Released).(live := s.live - 1) else s
    case _ => s
  }

  // ---- receiver -----------------------------------------------------------------------------

  function Return<V>(x: Receiver<V>): Receiver<V> { x.(pc := Idle, last := false) }

  function EntryStep<V>(n: nat, x: Receiver<V>): Receiver<V> {
    match x.kind
    case Many(max) =>
      var m := if max < |x.staging| then max else |x.staging|;
      var y := x.(out := x.out + x.staging[..m], staging := x.staging[m..], pushed := m);
      if m == max then Return(y) else y.(pc := Pass(n), start := x.cursor)
    case _ =>
      if x.staging == [] then x.(pc := Pass(n), start := x.cursor)
      else Return(x.(out := x.out + [x.staging[0]], staging := x.staging[1..]))
  }

  function EndPass<V>(x: Receiver<V>): Receiver<V> {
    if !x.kind.Recv? then Return(x) else if x.last then x.(pc := Finished, last := false) else x.(pc := CheckLive)
  }

  function Forward<V>(word: nat, x: Receiver<V>, k: nat): Receiver<V>
    requires word > 0
  {
    x.(cursor := (x.cursor + 1) % word, pc := Pass(k))
  }

  function Hand<V>(word: nat, x: Receiver<V>, moved: seq<Item<V>>, k: nat): Receiver<V>
    requires word > 0
  {
    if x.kind.Many? then Forward(word, x.(out := x.out + moved, pushed := x.pushed + |moved|), k)
    else
      var staged := x.staging + moved;
      if staged == [] then x else Return(Forward(word, x.(out := x.out + [staged[0]], staging := staged[1..]), k))
  }

  function Limit<V>(x: Receiver<V>): nat {
    if x.kind.Many? then (if x.kind.max > x.pushed then x.kind.max - x.pushed else 0) else x.batch
  }

  function PassStep<V>(s: State<V>, k: nat, j: nat): (t: State<V>)
    requires WellFormed(s)
    ensures WellFormed(t) && t.n == s.n && t.word == s.word
  {
    var x := s.rx;
    if k == 0 || (x.kind.Many? && x.pushed >= x.kind.max) then s.(rx := EndPass(x))
    else
      var i := x.cursor % s.n;
      var q := s.rings[i].queue;
      var g := Amount(|q|, Limit(x), j);
      if g == 0 then s.(rx := x.(pc := Check(k - 1, i)))
      else s.(rings := s.rings[i := s.rings[i].(queue := q[g..])], rx := Hand(s.word, x, Tagged(s.rings[i].owner, q[..g]), k - 1))
  }

  /** A finished ring that nobody shares is reset in place. */
  function CheckStep<V>(s: State<V>, k: nat, i: nat): (t: State<V>)
    requires WellFormed(s)
    ensures WellFormed(t) && t.n == s.n && t.word == s.word
  {
    if i >= s.n then s.(fault := true)
    else if !s.rings[i].gone || |s.rings[i].queue| > 0 || !s.at[i].Spent? then s.(rx := Forward(s.word, s.rx, k))
    else s.(rings := s.rings[i := s.rings[i].(gone := false)], at := s.at[i := Reset], rx := s.rx.(pc := WriteSlot(k, i)))
  }

  function GoStep<V>(s: State<V>, j: nat): (t: State<V>)
    requires WellFormed(s)
    ensures WellFormed(t) && t.n == s.n && t.word == s.word
  {
    var x := s.rx;
    match x.pc
    case Entry => s.(rx := EntryStep(s.n, x))
    case Pass(k) => PassStep(s, k, j)
    case Check(k, i) => CheckStep(s, k, i)
    case WriteSlot(k, i) =>
      if i >= s.n || s.slots[i] then s.(fault := true)
      else s.(slots := s.slots[i := true], at := s.at[i := Written], rx := x.(pc := SetBit(k, i)))
    case SetBit(k, i) =>
      if i >= s.n || s.free[i] then s.(fault := true)
      else s.(free := s.free[i := true], at := s.at[i := Free], rx := Forward(s.word, x, k))
    case CheckLive => s.(rx := x.(pc := Entry, last := s.live == 0))
    case _ => s
  }

  predicate Resting(pc: Pc) { pc.Idle? || pc.Finished? }

  function Step<V>(s: State<V>, e: Event<V>): (t: State<V>)
    requires WellFormed(s)
    ensures WellFormed(t) && t.n == s.n && t.word == s.word
  {
    match e
    case Claim(c, spurious) => if c < |s.claimers| then ClaimStep(s, c, spurious) else s
    case Go(j) => GoStep(s, j)
    case SetBatch(limit) => if Resting(s.rx.pc) then s.(rx := s.rx.(batch := if limit == 0 then 1 else limit)) else s
    case Call(kind) => if Resting(s.rx.pc) then s.(rx := s.rx.(pc := Entry, kind := kind, pushed := 0, last := false)) else s
    case CloneHandle(_) => HandleStep(s, e)
    case DropHandle(_) => HandleStep(s, e)
    case StartClaim(_) => HandleStep(s, e)
    case _ => ProducerStep(s, e)
  }

  function Run<V>(n: nat, cap: nat, word: nat, es: seq<Event<V>>): (s: State<V>)
    requires 0 < n < word
    ensures WellFormed(s) && s.n == n && s.word == word
  {
    if es == [] then Init(n, cap, word) else Step(Run(n, cap, word, es[..|es| - 1]), es[|es| - 1])
  }

  // ---- which shards a pass visits ----------------------------------------------------------

  /** The shard visited `t` steps into a pass, with the cursor's wrap-around. */
  function Visit(start: nat, t: nat, n: nat, word: nat): nat
    requires n > 0 && word > 0
  {
    (start + t) % word % n
  }

  ghost predicate Visited(i: nat, start: nat, n: nat, word: nat)
    requires n > 0 && word > 0
  {
    exists t :: 0 <= t < n && Visit(start, t, n, word) == i
  }

  /** A pass of `n` steps that begins at `start` looks at every shard. */
  ghost predicate Covers(start: nat, n: nat, word: nat)
    requires n > 0 && word > 0
  {
    forall i :: 0 <= i < n ==> Visited(i, start, n, word)
  }
}
