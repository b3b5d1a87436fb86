/** Waiting for capacity without losing the wake: a send future arms its task slot and rechecks the ring, while the
    receiver publishes freed capacity (or its departure) and then notifies the slot. */
module Waker {
  import opened Wrappers

  /** A notification in progress: load the flag, swap it, wake what is registered. */
  datatype NotifyPc = Rest | Load | Swap | Wake

  /** Where the future continues once its registration is cleared. */
  datatype Then = Finish | Again | Yield

  datatype Pc = Idle | FirstGone | FirstPush | ArmMark | ArmRegister | ArmWait | RecheckGone | RecheckPush | Pending
    | ClearCheck(next: Then) | ClearWait(next: Then) | ClearTake(next: Then)

  const BUDGET: nat := 64

  /** `arms` counts registrations; `slot` names the one whose waker is stored; `woken` tells whether the latest one has been
      woken (by a notification or by the future itself). `items` are still to be sent; `batch` marks the budgeted future. */
  datatype State = State(
    cap: nat, used: nat, gone: bool, waiting: bool, needsClear: bool, slot: Option<nat>,
    pc: Pc, items: nat, batch: bool, budget: nat, arms: nat, woken: bool, notifiers: seq<NotifyPc>)

  datatype Event =
    | Begin(items: nat, batch: bool) | Poll | Cancel | Future
    | Free(m: nat, n: nat) | Close(m: nat) | Notify(m: nat)

  function Init(cap: nat, notifiers: nat): State {
    State(cap, 0, false, false, false, None, Idle, 0, false, 0, 0, false, seq(notifiers, _ => Rest))
  }

  /** A value was accepted. */
  function Pushed(s: State, recheck: bool): State
    requires s.items > 0
  {
    var t := s.(used := s.used + 1, items := s.items - 1, budget := if s.budget > 0 then s.budget - 1 else 0);
    if !s.batch then t.(pc := ClearCheck(Finish))
    else if t.budget == 0 then t.(pc := ClearCheck(if !recheck && t.items == 0 then Finish else Yield))
    else if recheck then t.(pc := ClearCheck(Again))
    else t.(pc := if t.items == 0 then ClearCheck(Finish) else FirstGone)
  }

  function Cleared(s: State, next: Then): State {
    match next
    case Finish => s.(pc := Idle)
    case Again => s.(pc := if s.items == 0 then Idle else FirstGone)
    case Yield => s.(pc := Pending, woken := true)
  }

  function FutureStep(s: State): State {
    match s.pc
    case FirstGone => s.(pc := if s.items == 0 || s.gone then ClearCheck(Finish) else FirstPush)
    case FirstPush => if s.items > 0 && s.used < s.cap then Pushed(s, false) else s.(pc := ArmMark)
    case ArmMark => s.(needsClear := true, pc := ArmRegister)
    case ArmRegister => s.(arms := s.arms + 1, slot := Some(s.arms + 1), woken := false, pc := ArmWait)
    case ArmWait => s.(waiting := true, pc := RecheckGone)
    case RecheckGone => s.(pc := if s.gone then ClearCheck(Finish) else RecheckPush)
    case RecheckPush => if s.items > 0 && s.used < s.cap then Pushed(s, true) else s.(pc := Pending)
    case ClearCheck(next) => if s.needsClear then s.(needsClear := false, pc := ClearWait(next)) else Cleared(s, next)
    case ClearWait(next) => s.(waiting := false, pc := ClearTake(next))
    case ClearTake(next) => Cleared(s.(slot := None), next)
    case _ => s
  }

  function SetPc(s: State, m: nat, pc: NotifyPc): State
    requires m < |s.notifiers|
  {
    s.(notifiers := s.notifiers[m := pc])
  }

  function NotifyStep(s: State, m: nat): State
    requires m < |s.notifiers|
  {
    match s.notifiers[m]
    case Load => SetPc(s, m, if s.waiting then Swap else Rest)
    case Swap => SetPc(s, m, if s.waiting then Wake else Rest).(waiting := false)
    case Wake => SetPc(s, m, Rest).(slot := None, woken := s.woken || s.slot == Some(s.arms))
    case Rest => s
  }

  function Step(s: State, e: Event): State {
    match e
    case Begin(items, batch) =>
      if s.pc.Idle? && items > 0 then s.(items := items, batch := batch, budget := BUDGET, pc := FirstGone) else s
    case Poll => if s.pc.Pending? then s.(budget := BUDGET, pc := FirstGone) else s
    case Cancel => if s.pc.Pending? then s.(pc := ClearCheck(Finish)) else s
    case Future => FutureStep(s)
    case Free(m, n) =>
      if m < |s.notifiers| && s.notifiers[m].Rest? && 0 < n <= s.used then SetPc(s, m, Load).(used := s.used - n) else s
    case Close(m) => if m < |s.notifiers| && s.notifiers[m].Rest? then SetPc(s, m, Load).(gone := true) else s
    case Notify(m) => if m < |s.notifiers| then NotifyStep(s, m) else s
  }

  function Run(cap: nat, notifiers: nat, es: seq<Event>): State {
    if es == [] then Init(cap, notifiers) else Step(Run(cap, notifiers, es[..|es| - 1]), es[|es| - 1])
  }

  // ---- invariant ----------------------------------------------------------------------------

  predicate Busy(ns: seq<NotifyPc>) { exists m :: 0 <= m < |ns| && !ns[m].Rest? }

  predicate Waking(ns: seq<NotifyPc>) { exists m :: 0 <= m < |ns| && ns[m].Wake? }

  predicate Armed(pc: Pc) { pc.RecheckGone? || pc.RecheckPush? || pc.Pending? }

  /** The pcs at which the future holds no value to send, or not for certain. */
  predicate Aside(pc: Pc) { pc.Idle? || pc.FirstGone? || pc.Pending? || pc.ClearCheck? || pc.ClearWait? || pc.ClearTake? }

  predicate Inv(s: State) {
    && s.used <= s.cap
    && (s.items > 0 || Aside(s.pc))
    && (s.pc.ArmWait? || Armed(s.pc) ==> s.woken || s.slot == Some(s.arms))
    && (Armed(s.pc) && !s.woken ==> s.waiting || Waking(s.notifiers))
    && (s.pc.RecheckPush? && s.gone && !s.woken ==> Busy(s.notifiers))
    && (s.pc.Pending? && (s.gone || s.used < s.cap) && !s.woken ==> Busy(s.notifiers))
  }

  lemma WakingIsBusy(ns: seq<NotifyPc>)
    ensures Waking(ns) ==> Busy(ns)
  {
  }

  /** Before arming and while clearing, nothing is promised yet. */
  lemma UnarmedKeeps(s: State, t: State)
    requires Inv(s) && t.used <= t.cap && !t.pc.ArmWait? && (!Armed(t.pc) || (t.pc.Pending? && t.woken))
    requires t.items > 0 || Aside(t.pc)
    ensures Inv(t)
  {
  }

  lemma PushedAside(s: State, recheck: bool)
    requires s.items > 0
    ensures var t := Pushed(s, recheck); t.used == s.used + 1 && t.cap == s.cap && Aside(t.pc) && !t.pc.Pending?
  {
  }

  lemma ClearedAside(s: State, next: Then)
    ensures var t := Cleared(s, next); t.used == s.used && t.cap == s.cap && Aside(t.pc) && (t.pc.Pending? ==> t.woken)
  {
  }

  lemma UnarmedStep(s: State)
    requires s.used <= s.cap && (s.items > 0 || Aside(s.pc)) && !s.pc.ArmMark? && !s.pc.ArmRegister? && !s.pc.ArmWait? && !s.pc.Pending?
    requires !s.pc.RecheckGone? && (s.pc.RecheckPush? ==> s.used < s.cap)
    ensures var t := FutureStep(s);
      t.used <= t.cap && !t.pc.ArmWait? && (!Armed(t.pc) || (t.pc.Pending? && t.woken)) && (t.items > 0 || Aside(t.pc))
  {
    hide Pushed, Cleared;
    if s.pc.FirstPush? && s.used < s.cap { PushedAside(s, false); }
    if s.pc.RecheckPush? { PushedAside(s, true); }
    if s.pc.ClearCheck? { ClearedAside(s, s.pc.next); }
    if s.pc.ClearTake? { ClearedAside(s.(slot := None), s.pc.next); }
  }

  lemma ArmingKeeps(s: State)
    requires Inv(s) && (s.pc.ArmMark? || s.pc.ArmRegister? || s.pc.ArmWait?)
    ensures Inv(FutureStep(s))
  {
    hide Busy, Waking;
  }

  lemma RecheckKeeps(s: State)
    requires Inv(s) && (s.pc.RecheckGone? || (s.pc.RecheckPush? && s.used == s.cap))
    ensures Inv(FutureStep(s))
  {
    hide Busy, Waking;
  }

  lemma FutureKeeps(s: State)
    requires Inv(s)
    ensures Inv(FutureStep(s))
  {
    hide Busy, Waking;
    if s.pc.ArmMark? || s.pc.ArmRegister? || s.pc.ArmWait? { ArmingKeeps(s); }
    else if s.pc.RecheckGone? || (s.pc.RecheckPush? && s.used == s.cap) { RecheckKeeps(s); }
    else if !s.pc.Pending? {
      UnarmedStep(s);
      hide FutureStep;
      UnarmedKeeps(s, FutureStep(s));
    }
  }

  /** A notifier that publishes is busy from then on. */
  lemma PublishKeeps(s: State, m: nat, used: nat, gone: bool)
    requires Inv(s) && m < |s.notifiers| && s.notifiers[m].Rest? && used <= s.used
    ensures Inv(SetPc(s, m, Load).(used := used, gone := gone))
  {
    var t := SetPc(s, m, Load).(used := used, gone := gone);
    assert t.notifiers[m].Load?;
    assert Busy(t.notifiers);
    if Waking(s.notifiers) {
      var k :| 0 <= k < |s.notifiers| && s.notifiers[k].Wake?;
      assert t.notifiers[k].Wake?;
    }
  }

  lemma WakeKeeps(s: State, m: nat)
    requires Inv(s) && m < |s.notifiers| && s.notifiers[m].Wake?
    ensures Inv(NotifyStep(s, m))
  {
    hide Busy, Waking;
  }

  /** A notifier leaves only after a wake, or when another one is about to wake. */
  lemma NotifyKeeps(s: State, m: nat)
    requires Inv(s) && m < |s.notifiers|
    ensures Inv(NotifyStep(s, m))
  {
    hide Busy, Waking;
    if s.notifiers[m].Wake? {
      WakeKeeps(s, m);
    } else if !s.notifiers[m].Rest? {
      var t := NotifyStep(s, m);
      assert t == s.(notifiers := s.notifiers[m := t.notifiers[m]], waiting := t.waiting);
      assert t.waiting == (s.waiting && s.notifiers[m].Load?) && (s.waiting ==> !t.notifiers[m].Rest?) && (s.notifiers[m].Swap? && s.waiting ==> t.notifiers[m].Wake?);
      OthersWake(s.notifiers, m, t.notifiers[m]);
      hide NotifyStep;
    }
  }

  lemma OthersWake(ns: seq<NotifyPc>, m: nat, pc: NotifyPc)
    requires m < |ns|
    ensures Waking(ns) && !ns[m].Wake? ==> Waking(ns[m := pc])
    ensures pc.Wake? ==> Waking(ns[m := pc])
    ensures !pc.Rest? || Waking(ns[m := pc]) ==> Busy(ns[m := pc])
  {
    var os := ns[m := pc];
    assert os[m] == pc;
    if Waking(ns) && !ns[m].Wake? {
      var k :| 0 <= k < |ns| && ns[k].Wake?;
      assert os[k].Wake?;
    }
  }

  lemma {:induction false} RunInv(cap: nat, notifiers: nat, es: seq<Event>)
    ensures Inv(Run(cap, notifiers, es))
  {
    if es != [] {
      var (s, e) := (Run(cap, notifiers, es[..|es| - 1]), es[|es| - 1]);
      RunInv(cap, notifiers, es[..|es| - 1]);
      match e
      case Future => FutureKeeps(s);
      case Free(m, n) => if m < |s.notifiers| && s.notifiers[m].Rest? && 0 < n <= s.used { PublishKeeps(s, m, s.used - n, s.gone); }
      case Close(m) => if m < |s.notifiers| && s.notifiers[m].Rest? { PublishKeeps(s, m, s.used, true); }
      case Notify(m) => if m < |s.notifiers| { NotifyKeeps(s, m); }
      case _ =>
    }
  }

  // ---- theorems --------------------------------------------------------------------------------

  /** No lost wake: a pending send with room in its ring, or without a receiver, and with no notification in progress, has been
      woken since it last armed. Otherwise it is armed, so that the next notification reaches it. */
  lemma NoLostWake(cap: nat, notifiers: nat, es: seq<Event>)
    requires var s := Run(cap, notifiers, es); s.pc.Pending? && !Busy(s.notifiers)
    ensures var s := Run(cap, notifiers, es); s.used < s.cap || s.gone ==> s.woken
    ensures var s := Run(cap, notifiers, es); s.woken || (s.waiting && s.slot == Some(s.arms))
  {
    RunInv(cap, notifiers, es);
    WakingIsBusy(Run(cap, notifiers, es).notifiers);
  }

  /** The partner: from such an armed state, freeing capacity or closing and then notifying wakes the future. */
  lemma NextNotifyWakes(cap: nat, notifiers: nat, es: seq<Event>, m: nat, publish: Event)
    requires var s := Run(cap, notifiers, es); s.pc.Pending? && !Busy(s.notifiers) && m < |s.notifiers|
    requires var s := Run(cap, notifiers, es);
      (publish == Close(m) || (publish.Free? && publish.m == m && 0 < publish.n <= s.used))
    ensures Step(Step(Step(Step(Run(cap, notifiers, es), publish), Notify(m)), Notify(m)), Notify(m)).woken
  {
    NoLostWake(cap, notifiers, es);
    var s := Run(cap, notifiers, es);
    assert s.notifiers[m].Rest?;
    hide Run;
    var a := Step(s, publish);
    assert a.notifiers[m].Load? && a.woken == s.woken && a.waiting == s.waiting && a.slot == s.slot && a.arms == s.arms;
    var b := Step(a, Notify(m));
    assert b.woken == s.woken && (s.woken || b.notifiers[m].Swap?);
  }
}
