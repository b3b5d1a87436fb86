/** Competing consumers over a growing set of producer rings. Producers register at run time,
    consumers drain whole batches under a per-ring claim and skip rings their peers hold, and `recv`
    gives up only after a scan made once nobody could send any more. */
module Dynamic {
  import opened Wrappers
  import Items
  import Scan

  /** The two membership stores: a locked vector with private snapshots, or a bounded array of cells. */
  datatype Runtime = Locked | Array(max: nat)

  /** How far the registration of a ring's producer has got, then whether it is alive. */
  datatype Stage = Entered | Published | Live | Dead

  /** A value together with where it was sent. */
  datatype Parcel<V> = Parcel(ring: nat, pos: nat, value: V)

  /** `claim` is the flag and, when set, who won it. `sent` and `took` are the ring's history: what was
      pushed and which consumer drained each value. The values in the ring are sent[|took|..]. */
  datatype Ring<V> = Ring(stage: Stage, owner: nat, claim: Option<nat>, sent: seq<V>, took: seq<nat>)

  /** recv / try_recv, recv_batch / try_recv_batch, for_each / drain. */
  datatype Kind = One | Batch | InPlace(max: nat)

  datatype Pc = Idle | Entry | LoadCount | Select | Refresh | Pick | Claim | Drain | Release | CheckLive
    | Finished | Retired | Quit

  /** `log` is history: everything this consumer drained. `first` is where the current scan began. */
  datatype Consumer<V> = Consumer(
    scan: Scan.Position, snap: nat, staging: seq<Parcel<V>>, batch: nat, out: seq<Parcel<V>>, log: seq<Parcel<V>>,
    pc: Pc, kind: Kind, blocking: bool, final: bool, done: nat,
    n: nat, k: nat, first: nat, len: nat, i: nat, got: nat)

  datatype State<V> = State(
    runtime: Runtime, cap: nat, rings: seq<Ring<V>>, registrars: seq<bool>, live: int, count: nat,
    consumers: seq<Consumer<V>>, fault: bool)

  datatype Event<V> =
    | CloneRegistrar(a: nat) | DropRegistrar(a: nat) | Enter(a: nat) | Publish(i: nat) | GoLive(i: nat)
    | DropProducer(i: nat) | Push(i: nat, v: V)
    | CloneConsumer(c: nat, seed: nat) | DropConsumer(c: nat) | SetBatch(c: nat, limit: nat)
    | Call(c: nat, kind: Kind, blocking: bool) | Go(c: nat, j: nat) | Unwind(c: nat)

  function NewConsumer<V>(seed: nat, batch: nat): Consumer<V> {
    Consumer(Scan.Fresh(seed), 0, [], batch, [], [], Idle, One, false, false, 0, 0, 0, 0, 0, 0, 0)
  }

  function Init<V>(runtime: Runtime, cap: nat): State<V> {
    State(runtime, cap, [], [true], 1, 0, [NewConsumer(0, 64)], false)
  }

  function SetRing<V>(s: State<V>, i: nat, r: Ring<V>): State<V>
    requires i < |s.rings|
  {
    s.(rings := s.rings[i := r])
  }

  function SetCon<V>(s: State<V>, c: nat, x: Consumer<V>): State<V>
    requires c < |s.consumers|
  {
    s.(consumers := s.consumers[c := x])
  }

  predicate InFlight(stage: Stage) { stage.Entered? || stage.Published? }

  /** The call is over: back to the caller. */
  function Return<V>(x: Consumer<V>): Consumer<V> { x.(pc := Idle, final := false) }

  function EntryStep<V>(x: Consumer<V>): Consumer<V> {
    match x.kind
    case One =>
      if x.staging == [] then x.(pc := LoadCount)
      else Return(x.(out := x.out + [x.staging[0]], staging := x.staging[1..]))
    case Batch =>
      if x.staging == [] then x.(pc := LoadCount) else Return(x.(out := x.out + x.staging, staging := []))
    case InPlace(max) =>
      var m := if max < |x.staging| then max else |x.staging|;
      var y := x.(out := x.out + x.staging[..m], staging := x.staging[m..], done := m);
      if m >= max then Return(y) else y.(pc := LoadCount)
  }

  function LoadCountStep<V>(s: State<V>, x: Consumer<V>): Consumer<V> {
    x.(staging := if x.kind.InPlace? then x.staging else [],
       n := s.count, k := 0, first := Scan.Index(x.scan.next, s.count), pc := Select)
  }

  function EndScan<V>(x: Consumer<V>): Consumer<V> {
    if x.done > 0 || !x.blocking then Return(x)
    else if x.final then x.(pc := Finished, final := false)
    else x.(pc := CheckLive)
  }

  function SelectStep<V>(s: State<V>, x: Consumer<V>): Consumer<V> {
    if x.k >= x.n || s.count == 0 then EndScan(x)
    else if s.runtime.Locked? then (if x.snap < s.count then x.(pc := Refresh) else x.(len := x.snap, pc := Pick))
    else x.(len := s.count, pc := Pick)
  }

  function PickStep<V>(s: State<V>, x: Consumer<V>): Consumer<V> {
    var i := Scan.Index(x.scan.next, x.len);
    var y := x.(i := i, k := x.k + 1, scan := Scan.Advance(x.scan, x.len));
    if s.runtime.Array? && i < |s.rings| && s.rings[i].stage.Entered? then y.(pc := Select) else y.(pc := Claim)
  }

  /** How many values a drain may move: never zero from a ring that has any, and otherwise the backend's choice `j`. */
  function Portion<V>(r: Ring<V>, x: Consumer<V>, j: nat): nat {
    var limit := if !x.kind.InPlace? then x.batch else if x.kind.max > x.done then x.kind.max - x.done else 0;
    Items.Amount(if |r.sent| > |r.took| then |r.sent| - |r.took| else 0, limit, j)
  }

  function Parcels<V>(r: Ring<V>, i: nat, g: nat): seq<Parcel<V>>
    requires |r.took| + g <= |r.sent|
  {
    seq(g, m requires 0 <= m < g => Parcel(i, |r.took| + m, r.sent[|r.took| + m]))
  }

  function DrainStep<V>(s: State<V>, c: nat, j: nat): State<V>
    requires c < |s.consumers| && s.consumers[c].i < |s.rings|
    requires |s.rings[s.consumers[c].i].took| <= |s.rings[s.consumers[c].i].sent|
  {
    var x := s.consumers[c];
    var r := s.rings[x.i];
    var g := Portion(r, x, j);
    var moved := Parcels(r, x.i, g);
    var y := x.(log := x.log + moved, got := g, pc := Release);
    var z := if x.kind.InPlace? then y.(out := x.out + moved) else y.(staging := x.staging + moved);
    SetRing(SetCon(s, c, z), x.i, r.(took := r.took + seq(g, _ => c)))
  }

  function Delivered<V>(x: Consumer<V>): Consumer<V> {
    match x.kind
    case One => if x.staging == [] then x else x.(out := x.out + [x.staging[0]], staging := x.staging[1..])
    case Batch => x.(out := x.out + x.staging, staging := [])
    case InPlace(_) => x
  }

  function ReleaseStep<V>(s: State<V>, c: nat): State<V>
    requires c < |s.consumers| && s.consumers[c].i < |s.rings|
  {
    var x := s.consumers[c];
    var t := SetRing(s, x.i, s.rings[x.i].(claim := None));
    if x.got == 0 then SetCon(t, c, x.(pc := Select))
    else if x.scan.next == 0 then s.(fault := true)
    else SetCon(t, c, Return(Delivered(x.(scan := Scan.Preferred(x.scan)))))
  }

  function GoStep<V>(s: State<V>, c: nat, j: nat): State<V>
    requires c < |s.consumers|
  {
    var x := s.consumers[c];
    match x.pc
    case Entry => SetCon(s, c, EntryStep(x))
    case LoadCount => SetCon(s, c, LoadCountStep(s, x))
    case Select => SetCon(s, c, SelectStep(s, x))
    case Refresh => SetCon(s, c, x.(snap := |s.rings|, len := |s.rings|, pc := Pick))
    case Pick => SetCon(s, c, PickStep(s, x))
    case Claim =>
      if x.i >= |s.rings| then s.(fault := true)
      else if s.rings[x.i].claim.Some? then SetCon(s, c, x.(pc := Select))
      else SetRing(SetCon(s, c, x.(pc := Drain)), x.i, s.rings[x.i].(claim := Some(c)))
    case Drain => if x.i >= |s.rings| || |s.rings[x.i].took| > |s.rings[x.i].sent| then s.(fault := true) else DrainStep(s, c, j)
    case Release => if x.i >= |s.rings| then s.(fault := true) else ReleaseStep(s, c)
    case CheckLive => SetCon(s, c, x.(pc := Entry, final := s.live == 0))
    case _ => s
  }

  /** A drain callback that unwinds: the ring's guard has committed what was moved, the claim guard lets go. */
  function UnwindStep<V>(s: State<V>, c: nat): State<V>
    requires c < |s.consumers|
  {
    var x := s.consumers[c];
    if x.pc.Release? && x.kind.InPlace? && x.got > 0 && x.i < |s.rings|
    then SetCon(SetRing(s, x.i, s.rings[x.i].(claim := None)), c, Return(x))
    else s
  }

  /** Registrars, registrations and producers. A registrar cannot be dropped while a registration borrows it. */
  function MemberStep<V>(s: State<V>, e: Event<V>): State<V> {
    match e
    case CloneRegistrar(a) =>
      if a < |s.registrars| && s.registrars[a] then s.(registrars := s.registrars + [true], live := s.live + 1) else s
    case DropRegistrar(a) =>
      if a < |s.registrars| && s.registrars[a] && (forall i :: 0 <= i < |s.rings| && InFlight(s.rings[i].stage) ==> s.rings[i].owner != a)
      then s.(registrars := s.registrars[a := false], live := s.live - 1) else s
    case Enter(a) =>
      if a < |s.registrars| && s.registrars[a] && (s.runtime.Array? ==> s.count < s.runtime.max)
      then s.(rings := s.rings + [Ring(Entered, a, None, [], [])], count := if s.runtime.Array? then s.count + 1 else s.count)
      else s
    case Publish(i) =>
      if i < |s.rings| && s.rings[i].stage.Entered?
      then SetRing(s, i, s.rings[i].(stage := Published)).(count := if s.runtime.Array? then s.count else s.count + 1)
      else s
    case GoLive(i) =>
      if i < |s.rings| && s.rings[i].stage.Published?
      then SetRing(s, i, s.rings[i].(stage := Live)).(live := s.live + 1) else s
    case DropProducer(i) =>
      if i < |s.rings| && s.rings[i].stage.Live?
      then SetRing(s, i, s.rings[i].(stage := Dead)).(live := s.live - 1) else s
    case Push(i, v) =>
      if i < |s.rings| && s.rings[i].stage.Live? && |s.rings[i].sent| - |s.rings[i].took| < s.cap
      then SetRing(s, i, s.rings[i].(sent := s.rings[i].sent + [v])) else s
    case _ => s
  }

  predicate Resting(pc: Pc) { pc.Idle? || pc.Finished? }

  function Step<V>(s: State<V>, e: Event<V>): State<V> {
    match e
    case CloneConsumer(c, seed) =>
      if c < |s.consumers| && !s.consumers[c].pc.Retired? && !s.consumers[c].pc.Quit?
      then s.(consumers := s.consumers + [NewConsumer(seed, s.consumers[c].batch)]) else s
    case DropConsumer(c) =>
      if c < |s.consumers| && Resting(s.consumers[c].pc)
      then SetCon(s, c, s.consumers[c].(pc := if s.consumers[c].pc.Finished? then Retired else Quit)) else s
    case SetBatch(c, limit) =>
      if c < |s.consumers| && Resting(s.consumers[c].pc)
      then SetCon(s, c, s.consumers[c].(batch := if limit == 0 then 1 else limit)) else s
    case Call(c, kind, blocking) =>
      if c < |s.consumers| && Resting(s.consumers[c].pc)
      then SetCon(s, c, s.consumers[c].(pc := Entry, kind := kind, blocking := blocking, final := false, done := 0)) else s
    case Go(c, j) => if c < |s.consumers| then GoStep(s, c, j) else s
    case Unwind(c) => if c < |s.consumers| then UnwindStep(s, c) else s
    case _ => MemberStep(s, e)
  }

  function Run<V>(runtime: Runtime, cap: nat, es: seq<Event<V>>): State<V> {
    if es == [] then Init(runtime, cap) else Step(Run(runtime, cap, es[..|es| - 1]), es[|es| - 1])
  }
}
