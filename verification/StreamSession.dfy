/** Several transfers over one direction: each call finds the rings and slots as the one before left them. */
module StreamSession {
  import opened Bytes
  import opened Stream
  import opened StreamSafety

  /** One transfer: what is sent, and the interleaving it ran with. */
  datatype Leg = Leg(g: Config, es: seq<Event>)

  /** Both ends start a new call; rings and slots are whatever they are. */
  function Begin(s: State): State { Init(s.mem).(data := s.data, releases := s.releases) }

  function RunFrom(g: Config, s: State, es: seq<Event>): State
    requires Opened(g)
  {
    if es == [] then s else Step(g, RunFrom(g, s, es[..|es| - 1]), es[|es| - 1])
  }

  /** Every leg uses this direction's slots. */
  predicate Direction(legs: seq<Leg>, slots: nat) {
    forall i :: 0 <= i < |legs| ==> Opened(legs[i].g) && legs[i].g.shape.slots == slots
  }

  /** The state after the last leg. */
  function After(legs: seq<Leg>, mem: seq<seq<byte>>, slots: nat): State
    requires Direction(legs, slots)
  {
    if legs == [] then Init(mem)
    else
      var l := |legs| - 1;
      RunFrom(legs[l].g, Begin(After(legs[..l], mem, slots)), legs[l].es)
  }

  /** In every leg both ends returned Ok. */
  predicate AllOk(legs: seq<Leg>, mem: seq<seq<byte>>, slots: nat)
    requires Direction(legs, slots)
  {
    legs == [] || (AllOk(legs[..|legs| - 1], mem, slots) && Finished(After(legs, mem, slots)))
  }

  /** What the consumer's calls wrote, one after the other, and what the producer's calls were given. */
  function Written(legs: seq<Leg>, mem: seq<seq<byte>>, slots: nat): seq<byte>
    requires Direction(legs, slots)
  {
    if legs == [] then [] else Written(legs[..|legs| - 1], mem, slots) + After(legs, mem, slots).c.out
  }

  function Given(legs: seq<Leg>): seq<byte> {
    if legs == [] then [] else
      var g := legs[|legs| - 1].g;
      Given(legs[..|legs| - 1]) + if Length(g) <= |g.source| then g.source[..Length(g)] else g.source
  }

  /** From empty rings a later call is a first call over other slot contents. */
  lemma {:induction false} SameAsFirst(g: Config, s: State, es: seq<Event>)
    requires Opened(g) && s.data == [] && s.releases == []
    ensures RunFrom(g, Begin(s), es) == Run(g, s.mem, es)
  {
    if es != [] {
      SameAsFirst(g, s, es[..|es| - 1]);
      hide Step;
    }
  }

  /** Any number of transfers compose: if every call returns Ok, the bytes written are the bytes given, leg after leg,
      and the direction is left ready for the next transfer. */
  lemma {:induction false} TransfersCompose(legs: seq<Leg>, mem: seq<seq<byte>>, slots: nat)
    requires Direction(legs, slots) && |mem| == slots && AllOk(legs, mem, slots)
    ensures Written(legs, mem, slots) == Given(legs)
    ensures var s := After(legs, mem, slots); s.data == [] && s.releases == [] && |s.mem| == slots
  {
    if legs != [] {
      var l := |legs| - 1;
      var g, es := legs[l].g, legs[l].es;
      TransfersCompose(legs[..l], mem, slots);
      var s := After(legs[..l], mem, slots);
      SameAsFirst(g, s, es);
      assert After(legs, mem, slots) == Run(g, s.mem, es);
      hide Run, RunFrom, Opened;
      BothOk(g, s.mem, es);
      ReceivedAll(g, s.mem, es);
    }
  }

  /** Each call can be carried out: from any finished session, a transferable stream has a run in which both ends return Ok. */
  lemma NextTransfer(legs: seq<Leg>, mem: seq<seq<byte>>, slots: nat, g: Config) returns (es: seq<Event>)
    requires Direction(legs, slots) && |mem| == slots && AllOk(legs, mem, slots)
    requires Opened(g) && g.shape.slots == slots && Transferable(g)
    ensures Direction(legs + [Leg(g, es)], slots) && AllOk(legs + [Leg(g, es)], mem, slots)
  {
    hide Opened, Run, Transferable;
    TransfersCompose(legs, mem, slots);
    var s := After(legs, mem, slots);
    var none: seq<Event> := [];
    es := Completes(g, s.mem, none);
    assert none + es == es;
    SameAsFirst(g, s, es);
    var more := legs + [Leg(g, es)];
    assert more[..|legs|] == legs;
  }
}
