/** Many producers gathered by one receiver: each producer owns a shard ring, shards join through an inbox,
    finished shards are removed from the scan and may be reset for a later producer. */
module Mpsc {
  import opened Items

  /** Where a ring's receiving end is. */
  datatype Place = Held | Inbox | Shard | Pooled | Freed

  /** `owner` is the latest producer the ring was handed to. */
  datatype Ring<V> = Ring(queue: seq<V>, gone: bool, owner: nat)

  /** Registration counts the sender live, deposits the shard, then hands out the producer; dropping a producer
      flags the ring, releases its share of the ring, then stops counting. */
  datatype Stage = Made | Counted | Deposited | Live | TxGone | ArcGone | Released

  /** `sent` is history: what this producer's sends accepted. */
  datatype Producer<V> = Producer(ring: nat, registrar: nat, stage: Stage, sent: seq<V>)

  datatype Pc = Idle | Entry | LoadGeneration | Append(g: nat) | Pass(k: nat) | Check(k: nat, i: nat) | CheckLive | Finished

  /** `last` is set by the sweep made after no sender was seen live; `pre` by the extra refresh before it. */
  datatype Receiver<V> = Receiver(
    shards: seq<nat>, cursor: nat, batch: nat, staging: seq<Item<V>>, out: seq<Item<V>>,
    pc: Pc, kind: Kind, pushed: nat, last: bool, pre: bool)

  /** The inbox is a locked vector with a generation counter, or a lock-free stack. `entered` and `drained` are
      history: deposits so far, and how many of them the receiver took. `at` is the place of each ring. */
  datatype State<V> = State(
    lockFree: bool, cap: nat, poolCap: nat, rings: seq<Ring<V>>, at: seq<Place>, producers: seq<Producer<V>>,
    registrars: seq<bool>, live: int, inbox: seq<nat>, generation: nat, seen: nat, entered: nat, drained: nat,
    pool: seq<nat>, rx: Receiver<V>, fault: bool)

  datatype Event<V> =
    | CloneRegistrar(a: nat) | DropRegistrar(a: nat) | Make(a: nat) | CountLive(p: nat) | Deposit(p: nat) | Bump(p: nat)
    | Send(p: nat, v: V) | DropTx(p: nat) | DropArc(p: nat) | ReleaseLive(p: nat)
    | SetBatch(limit: nat) | Call(kind: Kind) | Go(j: nat)

  const WORD: nat := 0x1_0000_0000_0000_0000

  function Init<V>(lockFree: bool, cap: nat, poolCap: nat): State<V> {
    State(lockFree, cap, poolCap, [], [], [], [true], 1, [], 0, 0, 0, 0, [],
          Receiver([], 0, 64, [], [], Idle, TryRecv, 0, false, false), false)
  }

  predicate InFlight(stage: Stage) { stage.Made? || stage.Counted? || stage.Deposited? }

  function SetStage<V>(s: State<V>, p: nat, stage: Stage): State<V>
    requires p < |s.producers|
  {
    s.(producers := s.producers[p := s.producers[p].(stage := stage)])
  }

  /** One attempt of `register` to find a ring: a pooled ring nobody else shares is reset, a shared one is
      dropped and the registrar tries again, and with the pool empty a new ring is made. */
  function MakeStep<V>(s: State<V>, a: nat): State<V> {
    var p := |s.producers|;
    if s.pool == [] then
      s.(rings := s.rings + [Ring([], false, p)], at := s.at + [Held], producers := s.producers + [Producer(|s.rings|, a, Made, [])])
    else
      var r := s.pool[|s.pool| - 1];
      var t := s.(pool := s.pool[..|s.pool| - 1]);
      if r >= |s.rings| || r >= |s.at| || s.rings[r].owner >= |s.producers| then s.(fault := true)
      else if s.producers[s.rings[r].owner].stage.ArcGone? || s.producers[s.rings[r].owner].stage.Released? then
        t.(rings := s.rings[r := Ring([], false, p)], at := s.at[r := Held], producers := s.producers + [Producer(r, a, Made, [])],
           fault := s.fault || |s.rings[r].queue| > 0)
      else t.(at := s.at[r := Freed], fault := s.fault || |s.rings[r].queue| > 0)
  }

  function DepositStep<V>(s: State<V>, p: nat): State<V>
    requires p < |s.producers|
  {
    var r := s.producers[p].ring;
    if r >= |s.at| then s.(fault := true)
    else SetStage(s, p, Deposited).(inbox := if s.lockFree then [r] + s.inbox else s.inbox + [r], at := s.at[r := Inbox], entered := s.entered + 1)
  }

  /** Registrars and registration. A registrar outlives the registrations that borrow it. */
  function JoinStep<V>(s: State<V>, e: Event<V>): State<V> {
    match e
    case CloneRegistrar(a) =>
      if a < |s.registrars| && s.registrars[a] then s.(registrars := s.registrars + [true], live := s.live + 1) else s
    case DropRegistrar(a) =>
      if a < |s.registrars| && s.registrars[a]
        && (forall p :: 0 <= p < |s.producers| && InFlight(s.producers[p].stage) ==> s.producers[p].registrar != a)
      then s.(registrars := s.registrars[a := false], live := s.live - 1) else s
    case Make(a) => if a < |s.registrars| && s.registrars[a] then MakeStep(s, a) else s
    case CountLive(p) =>
      if p < |s.producers| && s.producers[p].stage.Made? then SetStage(s, p, Counted).(live := s.live + 1) else s
    case Deposit(p) => if p < |s.producers| && s.producers[p].stage.Counted? then DepositStep(s, p) else s
    case Bump(p) =>
      if p < |s.producers| && s.producers[p].stage.Deposited? then SetStage(s, p, Live).(generation := s.generation + 1) else s
    case _ => s
  }

  function ProducerStep<V>(s: State<V>, e: Event<V>): State<V> {
    match e
    case Send(p, v) =>
      if p < |s.producers| && s.producers[p].stage.Live? && s.producers[p].ring < |s.rings| && |s.rings[s.producers[p].ring].queue| < s.cap then
        var x := s.producers[p];
        s.(rings := s.rings[x.ring := s.rings[x.ring].(queue := s.rings[x.ring].queue + [v])], producers := s.producers[p := x.(sent := x.sent + [v])])
      else s
    case DropTx(p) =>
      if p < |s.producers| && s.producers[p].stage.Live? && s.producers[p].ring < |s.rings|
      then SetStage(s, p, TxGone).(rings := s.rings[s.producers[p].ring := s.rings[s.producers[p].ring].(gone := true)]) else s
    case DropArc(p) => if p < |s.producers| && s.producers[p].stage.TxGone? then SetStage(s, p, ArcGone) else s
    case ReleaseLive(p) =>
      if p < |s.producers| && s.producers[p].stage.ArcGone? then SetStage(s, p, Released).(live := s.live - 1) else s
    case _ => s
  }

  // ---- receiver -------------------------------------------------------------------------

  function Return<V>(x: Receiver<V>): Receiver<V> { x.(pc := Idle, last := false, pre := false) }

  function EntryStep<V>(x: Receiver<V>): Receiver<V> {
    match x.kind
    case Many(max) =>
      var m := if max < |x.staging| then max else |x.staging|;
      var y := x.(out := x.out + x.staging[..m], staging := x.staging[m..], pushed := m);
      if m == max then Return(y) else y.(pc := LoadGeneration)
    case _ =>
      if x.staging == [] then x.(pc := LoadGeneration)
      else Return(x.(out := x.out + [x.staging[0]], staging := x.staging[1..]))
  }

  function Refreshed<V>(x: Receiver<V>): Receiver<V> {
    if x.pre then x.(pre := false, pc := Entry) else x.(pc := Pass(|x.shards|))
  }

  function EndPass<V>(x: Receiver<V>): Receiver<V> {
    if !x.kind.Recv? then Return(x) else if x.last then x.(pc := Finished, last := false) else x.(pc := CheckLive)
  }

  function Forward<V>(x: Receiver<V>, k: nat): Receiver<V> { x.(cursor := (x.cursor + 1) % WORD, pc := Pass(k)) }

  function Taken(at: seq<Place>): seq<Place> {
    seq(|at|, i requires 0 <= i < |at| => if at[i].Inbox? then Shard else at[i])
  }

  function Limit<V>(x: Receiver<V>): nat {
    if x.kind.Many? then (if x.kind.max > x.pushed then x.kind.max - x.pushed else 0) else x.batch
  }

  function Hand<V>(x: Receiver<V>, moved: seq<Item<V>>, k: nat): Receiver<V> {
    if x.kind.Many? then Forward(x.(out := x.out + moved, pushed := x.pushed + |moved|), k)
    else
      var staged := x.staging + moved;
      if staged == [] then x else Return(Forward(x.(out := x.out + [staged[0]], staging := staged[1..]), k))
  }

  function PassStep<V>(s: State<V>, k: nat, j: nat): State<V> {
    var x := s.rx;
    if k == 0 || x.shards == [] || (x.kind.Many? && x.pushed >= x.kind.max) then s.(rx := EndPass(x))
    else
      var i := x.cursor % |x.shards|;
      var r := x.shards[i];
      if r >= |s.rings| then s.(fault := true)
      else
        var q := s.rings[r].queue;
        var g := Amount(|q|, Limit(x), j);
        if g == 0 then s.(rx := x.(pc := Check(k - 1, i)))
        else s.(rings := s.rings[r := s.rings[r].(queue := q[g..])], rx := Hand(x, Tagged(s.rings[r].owner, q[..g]), k - 1))
  }

  function SwapRemoved(q: seq<nat>, i: nat): seq<nat>
    requires i < |q|
  {
    q[i := q[|q| - 1]][..|q| - 1]
  }

  /** A finished shard leaves the scan, to the pool while it has room. */
  function CheckStep<V>(s: State<V>, k: nat, i: nat): State<V> {
    var x := s.rx;
    if i >= |x.shards| || x.shards[i] >= |s.rings| || x.shards[i] >= |s.at| then s.(fault := true)
    else
      var r := x.shards[i];
      if !s.rings[r].gone || |s.rings[r].queue| > 0 then s.(rx := Forward(x, k))
      else
        var t := s.(rx := x.(shards := SwapRemoved(x.shards, i), pc := Pass(k)));
        if |s.pool| < s.poolCap then t.(pool := s.pool + [r], at := s.at[r := Pooled]) else t.(at := s.at[r := Freed])
  }

  function GoStep<V>(s: State<V>, j: nat): State<V> {
    var x := s.rx;
    match x.pc
    case Entry => s.(rx := EntryStep(x))
    case LoadGeneration =>
      s.(rx := if s.lockFree || s.generation != s.seen then x.(pc := Append(s.generation)) else Refreshed(x))
    case Append(g) =>
      s.(inbox := [], at := Taken(s.at), seen := g, drained := s.entered, rx := Refreshed(x.(shards := x.shards + s.inbox)))
    case Pass(k) => PassStep(s, k, j)
    case Check(k, i) => CheckStep(s, k, i)
    case CheckLive => s.(rx := if s.live == 0 then x.(last := true, pre := true, pc := LoadGeneration) else x.(pc := Entry))
    case _ => s
  }

  predicate Resting(pc: Pc) { pc.Idle? || pc.Finished? }

  function Step<V>(s: State<V>, e: Event<V>): State<V> {
    match e
    case Go(j) => GoStep(s, j)
    case SetBatch(limit) => if Resting(s.rx.pc) then s.(rx := s.rx.(batch := if limit == 0 then 1 else limit)) else s
    case Call(kind) =>
      if Resting(s.rx.pc) then s.(rx := s.rx.(pc := Entry, kind := kind, pushed := 0, last := false, pre := false)) else s
    case Send(_, _) => ProducerStep(s, e)
    case DropTx(_) => ProducerStep(s, e)
    case DropArc(_) => ProducerStep(s, e)
    case ReleaseLive(_) => ProducerStep(s, e)
    case _ => JoinStep(s, e)
  }

  function Run<V>(lockFree: bool, cap: nat, poolCap: nat, es: seq<Event<V>>): State<V> {
    if es == [] then Init(lockFree, cap, poolCap) else Step(Run(lockFree, cap, poolCap, es[..|es| - 1]), es[|es| - 1])
  }
}
